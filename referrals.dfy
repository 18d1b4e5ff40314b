/** The referrals route (`GET` in src/app/api/cliniko/referrals/route.ts).

    One run collects every patient page by page, looks up each patient's
    referring doctor through a per-run contact cache, tallies patients per
    doctor name, ranks the top twenty and streams progress events throughout.
    The upstream API is given as functions from a request to the result of
    `clinikoFetch` for it; the time the route sleeps between its own requests
    is recorded in a trace of actions. */
module Referrals {
  import opened Wrappers
  import ClinikoFetch
  import opened DoctorNames
  import opened Tally
  import opened Ranking
  import opened Progress

  /** Milliseconds slept before each page or contact request (REQUEST_DELAY_MS). */
  const RequestDelayMs: nat := 50
  /** The collector stops after this many pages whatever the API says. */
  const MaxPages: nat := 200

  datatype DoctorLinks = DoctorLinks(self: Option<string>)
  datatype ReferringDoctor = ReferringDoctor(links: Option<DoctorLinks>)

  /** A patient record; only the referring doctor's link is used. */
  datatype Patient = Patient(id: int, firstName: Option<string>, lastName: Option<string>,
                             referringDoctor: Option<ReferringDoctor>, referralSource: Option<string>)

  datatype PageLinks = PageLinks(next: Option<string>)

  /** One page of `/patients`. */
  datatype PatientsPage = PatientsPage(patients: seq<Patient>, totalEntries: nat, links: Option<PageLinks>)

  /** What the route does, in order: sleep, or request a page or a contact. */
  datatype Action = Delay(ms: nat) | GetPage(page: nat) | GetContact(url: string)

  /** What `clinikoFetch` gives for each page number. */
  type PageSource = nat -> Result<PatientsPage, ClinikoFetch.FetchError>

  /** The reply to the request for page n. Method contracts name replies
      through this function rather than by applying `pages`, so that they
      do not depend on the heap. */
  function PageReply(pages: PageSource, n: nat): Result<PatientsPage, ClinikoFetch.FetchError> {
    pages(n)
  }

  /** What `clinikoFetch` gives for a contact URL, given how many contact
      requests the run made before this one (so that a URL that failed once
      may succeed later). */
  type ContactSource = (nat, string) -> Result<Contact, ClinikoFetch.FetchError>

  /** The reply to contact request n, for `url`. Method contracts name
      replies through this function rather than by applying `contacts`, so
      that they do not depend on the heap. */
  function Reply(contacts: ContactSource, n: nat, url: string): Result<Contact, ClinikoFetch.FetchError> {
    contacts(n, url)
  }

  /** `patient.referring_doctor?.links?.self`, when it is truthy. */
  function DoctorLink(p: Patient): (link: Option<string>)
    ensures link.Some? ==> link.value != ""
  {
    match p.referringDoctor
    case None => None
    case Some(doctor) =>
      match doctor.links
      case None => None
      case Some(links) => if Truthy(links.self) then links.self else None
  }

  /** `data.links?.next`. */
  function NextLink(page: PatientsPage): Option<string> {
    if page.links.Some? then page.links.value.next else None
  }

  /** `!!data.links?.next`. */
  predicate HasNext(page: PatientsPage) {
    page.links.Some? && Truthy(page.links.value.next)
  }

  /** A page has more exactly when `data.links?.next` is truthy: a `next`
      link is present and not empty. */
  lemma HasNextMeans(page: PatientsPage)
    ensures HasNext(page) <==> Truthy(NextLink(page))
    ensures HasNext(page) ==> page.links.value.next.value != ""
  {
  }

  // ---------------------------------------------------------------------------
  // Specification functions

  ghost predicate PagesOk(pages: PageSource, k: nat) {
    forall p :: 1 <= p <= k ==> pages(p).Success?
  }

  /** Pages 1..k-1 all came back with a next link. */
  ghost predicate NextLinked(pages: PageSource, k: nat) {
    k <= 1 || (NextLinked(pages, k - 1) && pages(k - 1).Success? && HasNext(pages(k - 1).value))
  }

  lemma {:induction false} NextLinkedMeans(pages: PageSource, k: nat)
    ensures NextLinked(pages, k) <==> forall p :: 1 <= p < k ==> pages(p).Success? && HasNext(pages(p).value)
  {
    if k > 1 {
      NextLinkedMeans(pages, k - 1);
    }
  }

  /** The patients of pages 1..k, in order. */
  ghost function Collected(pages: PageSource, k: nat): seq<Patient>
    requires PagesOk(pages, k)
  {
    if k == 0 then [] else Collected(pages, k - 1) + pages(k).value.patients
  }

  /** The `fetching` events sent after pages 1..k. */
  ghost function FetchingReports(pages: PageSource, k: nat): seq<Event>
    requires PagesOk(pages, k)
  {
    if k == 0 then []
    else FetchingReports(pages, k - 1) + [Fetching(|Collected(pages, k)|, pages(k).value.totalEntries)]
  }

  /** `before` followed by the delays and requests for pages 1..k. */
  function PagesRequested(before: seq<Action>, k: nat): seq<Action> {
    if k == 0 then before else PagesRequested(before, k - 1) + [Delay(RequestDelayMs), GetPage(k)]
  }

  /** The number of patients with a doctor link (`contactLookups` at the end). */
  function LinkedCount(patients: seq<Patient>): (n: nat)
    ensures n <= |patients|
  {
    if patients == [] then 0
    else LinkedCount(patients[..|patients| - 1]) + (if DoctorLink(patients[|patients| - 1]).Some? then 1 else 0)
  }

  /** The distinct doctor links of the patients. */
  function LinkSet(patients: seq<Patient>): set<string> {
    if patients == [] then {}
    else
      var last := DoctorLink(patients[|patients| - 1]);
      LinkSet(patients[..|patients| - 1]) + (if last.Some? then {last.value} else {})
  }

  /** The `processing` events sent after the first `upto` patients. */
  ghost function ProcessingReports(patients: seq<Patient>, upto: nat): seq<Event>
    requires upto <= |patients|
  {
    if upto == 0 then []
    else
      var report := Processing(upto, |patients|, LinkedCount(patients[..upto]));
      ProcessingReports(patients, upto - 1) + (if ReportsAt(upto, |patients|) then [report] else [])
  }

  /** The doctor name a patient resolves to through a cache that holds its link. */
  function ResolvedName(p: Patient, cache: map<string, Contact>): Option<string> {
    match DoctorLink(p)
    case None => None
    case Some(url) => if url in cache then FormatDoctorName(cache[url]) else None
  }

  function ContactRequests(trace: seq<Action>): nat {
    if trace == [] then 0
    else ContactRequests(trace[..|trace| - 1]) + (if trace[|trace| - 1].GetContact? then 1 else 0)
  }

  function RequestedUrls(trace: seq<Action>): set<string> {
    if trace == [] then {}
    else
      var last := trace[|trace| - 1];
      RequestedUrls(trace[..|trace| - 1]) + (if last.GetContact? then {last.url} else {})
  }

  /** Every request is preceded by exactly one delay of REQUEST_DELAY_MS. */
  predicate Paced(trace: seq<Action>) {
    trace == [] ||
      var n := |trace|;
      n >= 2 && trace[n - 2] == Delay(RequestDelayMs) && !trace[n - 1].Delay? && Paced(trace[..n - 2])
  }

  /** Paced, position by position: delays at the even positions, requests at
      the odd ones. */
  lemma {:induction false} PacedMeans(trace: seq<Action>)
    ensures Paced(trace) <==>
      && |trace| % 2 == 0
      && forall i :: 0 <= i < |trace| ==>
           if i % 2 == 0 then trace[i] == Delay(RequestDelayMs) else !trace[i].Delay?
  {
    var n := |trace|;
    if n >= 2 {
      var shorter := trace[..n - 2];
      PacedMeans(shorter);
      assert forall i :: 0 <= i < n - 2 ==> shorter[i] == trace[i];
    } else if n == 1 {
      assert !Paced(trace);
    }
  }

  // ---------------------------------------------------------------------------
  // Lemmas about them

  lemma AppendRequest(trace: seq<Action>, request: Action)
    requires Paced(trace) && !request.Delay?
    ensures Paced(trace + [Delay(RequestDelayMs), request])
    ensures ContactRequests(trace + [Delay(RequestDelayMs), request])
         == ContactRequests(trace) + (if request.GetContact? then 1 else 0)
    ensures RequestedUrls(trace + [Delay(RequestDelayMs), request])
         == RequestedUrls(trace) + (if request.GetContact? then {request.url} else {})
  {
    var longer := trace + [Delay(RequestDelayMs), request];
    assert longer[..|trace| + 1] == trace + [Delay(RequestDelayMs)];
    assert (trace + [Delay(RequestDelayMs)])[..|trace|] == trace;
    assert longer[..|trace|] == trace;
  }

  /** Requesting pages keeps the trace paced and adds no contact request. */
  lemma {:induction false} PagesRequestedPaced(before: seq<Action>, k: nat)
    requires Paced(before)
    ensures Paced(PagesRequested(before, k))
    ensures ContactRequests(PagesRequested(before, k)) == ContactRequests(before)
    ensures RequestedUrls(PagesRequested(before, k)) == RequestedUrls(before)
  {
    if k > 0 {
      PagesRequestedPaced(before, k - 1);
      AppendRequest(PagesRequested(before, k - 1), GetPage(k));
    }
  }

  /** The trace grows by a delay and a request per page, page p's request
      right after its delay, in page order. */
  lemma {:induction false} PagesRequestedOrder(before: seq<Action>, k: nat)
    ensures var after := PagesRequested(before, k);
      && |after| == |before| + 2 * k && after[..|before|] == before
      && forall p :: 1 <= p <= k ==>
           after[|before| + 2 * p - 2] == Delay(RequestDelayMs) && after[|before| + 2 * p - 1] == GetPage(p)
  {
    if k > 0 {
      var shorter := PagesRequested(before, k - 1);
      PagesRequestedOrder(before, k - 1);
      var after := shorter + [Delay(RequestDelayMs), GetPage(k)];
      assert after[..|before|] == shorter[..|before|];
      forall p | 1 <= p < k
        ensures after[|before| + 2 * p - 2] == Delay(RequestDelayMs) && after[|before| + 2 * p - 1] == GetPage(p)
      {
        assert after[|before| + 2 * p - 2] == shorter[|before| + 2 * p - 2];
        assert after[|before| + 2 * p - 1] == shorter[|before| + 2 * p - 1];
      }
    }
  }

  /** Each `fetching` event reports the patients collected so far, a count
      that never decreases. */
  lemma {:induction false} FetchingReportsShape(pages: PageSource, k: nat)
    requires PagesOk(pages, k)
    ensures FetchingRun(FetchingReports(pages, k))
    ensures |FetchingReports(pages, k)| == k
    ensures forall i :: 0 <= i < k ==> FetchingReports(pages, k)[i].current <= |Collected(pages, k)|
    ensures k > 0 ==> FetchingReports(pages, k)[k - 1].current == |Collected(pages, k)|
  {
    if k > 0 {
      assert PagesOk(pages, k - 1);
      FetchingReportsShape(pages, k - 1);
    }
  }

  /** The `processing` events come exactly at the report points (every 50
      patients and at the last), each with the lookups made so far. */
  lemma {:induction false} ProcessingReportsShape(patients: seq<Patient>, upto: nat)
    requires upto <= |patients|
    ensures var reports := ProcessingReports(patients, upto);
            var points := ReportPoints(upto, |patients|);
      && |reports| == |points|
      && (forall i :: 0 <= i < |reports| ==>
            && reports[i].Processing? && reports[i].current == points[i] && reports[i].total == |patients|
            && points[i] <= |patients|
            && reports[i].contactLookups == LinkedCount(patients[..points[i]]))
      && ProcessingRun(reports)
  {
    ReportPointsShape(upto, |patients|);
    if upto > 0 {
      ProcessingReportsShape(patients, upto - 1);
    }
  }

  lemma ProcessingReportsStep(patients: seq<Patient>, i: nat) returns (report: seq<Event>)
    requires i < |patients|
    ensures report == if ReportsAt(i + 1, |patients|)
                      then [Processing(i + 1, |patients|, LinkedCount(patients[..i + 1]))] else []
    ensures ProcessingReports(patients, i + 1) == ProcessingReports(patients, i) + report
  {
    report := if ReportsAt(i + 1, |patients|)
              then [Processing(i + 1, |patients|, LinkedCount(patients[..i + 1]))] else [];
  }

  /** The patient has a doctor link, and `name` is the formatted name of a
      contact that a request for that link returned. */
  ghost predicate NameFromSource(p: Patient, name: Option<string>, contacts: ContactSource) {
    && DoctorLink(p).Some?
    && exists n: nat :: contacts(n, DoctorLink(p).value).Success?
                      && FormatDoctorName(contacts(n, DoctorLink(p).value).value) == name
  }

  /** Some contact request for `url` failed. */
  ghost predicate ContactFailed(contacts: ContactSource, url: string) {
    exists n: nat :: contacts(n, url).Failure?
  }

  /** A contact request for one of `urls` failed. */
  ghost predicate FailedAmong(contacts: ContactSource, urls: set<string>) {
    exists u :: u in urls && ContactFailed(contacts, u)
  }

  /** Every cached contact is one that `contacts` returned for its URL. */
  ghost predicate FromSource(cache: map<string, Contact>, contacts: ContactSource) {
    forall u :: u in cache ==> exists n: nat :: contacts(n, u) == Success(cache[u])
  }

  /** `bigger` keeps every entry of `cache`. */
  ghost predicate Extends(cache: map<string, Contact>, bigger: map<string, Contact>) {
    forall u :: u in cache ==> u in bigger && bigger[u] == cache[u]
  }

  /** `name`, when known, is the formatted name of the cached contact behind
      the patient's doctor link. */
  ghost predicate NameFromCache(p: Patient, name: Option<string>, cache: map<string, Contact>) {
    name.Some? ==>
      && DoctorLink(p).Some? && DoctorLink(p).value in cache
      && FormatDoctorName(cache[DoctorLink(p).value]) == name
  }

  /** The patient's doctor link, if any, is cached, and `name` is the name
      its cached contact gives. */
  ghost predicate FullyResolved(p: Patient, name: Option<string>, cache: map<string, Contact>) {
    && (DoctorLink(p).Some? ==> DoctorLink(p).value in cache)
    && name == ResolvedName(p, cache)
  }

  /** Entries that stay in the cache keep every resolution made through them. */
  lemma ResolutionSurvivesGrowth(p: Patient, name: Option<string>, cache: map<string, Contact>,
                                 bigger: map<string, Contact>)
    requires Extends(cache, bigger)
    ensures NameFromCache(p, name, cache) ==> NameFromCache(p, name, bigger)
    ensures FullyResolved(p, name, cache) ==> FullyResolved(p, name, bigger)
  {
  }

  // ---------------------------------------------------------------------------
  // The contact lookups of the tally loop

  /** The contact cache and counters of a run (`contactCache`,
      `contactFetchSuccess`, `contactFetchFailed`, `contactCacheHits`). */
  datatype Lookups = Lookups(cache: map<string, Contact>, success: nat, failed: nat, hits: nat)

  /** The cache and counters each request starts with. */
  const NoLookups := Lookups(map[], 0, 0, 0)

  /** What the tally loop does for some patients: the name each resolved to,
      the cache and counters after them, and the delays and contact requests
      made for them. */
  datatype Lookup = Lookup(names: seq<Option<string>>, after: Lookups, requests: seq<Action>)

  /** One patient of the tally loop from cache and counters `st`. No doctor
      link gives no name. A cached link is a hit and gives its cached
      contact's name. Any other link costs a delay and contact request number
      `success + failed`: a success is cached and gives its contact's name,
      a failure gives no name. */
  function LookupPatient(p: Patient, contacts: ContactSource, st: Lookups): Lookup {
    match DoctorLink(p)
    case None => Lookup([None], st, [])
    case Some(url) =>
      if url in st.cache then Lookup([FormatDoctorName(st.cache[url])], st.(hits := st.hits + 1), [])
      else
        var requests := [Delay(RequestDelayMs), GetContact(url)];
        match Reply(contacts, st.success + st.failed, url)
        case Success(c) =>
          Lookup([FormatDoctorName(c)], st.(cache := st.cache[url := c], success := st.success + 1), requests)
        case Failure(_) => Lookup([None], st.(failed := st.failed + 1), requests)
  }

  /** The tally loop over `patients`, in order, from cache and counters `st`. */
  function LookupAll(patients: seq<Patient>, contacts: ContactSource, st: Lookups): (r: Lookup)
    ensures |r.names| == |patients|
  {
    if patients == [] then Lookup([], st, [])
    else
      var done := LookupAll(patients[..|patients| - 1], contacts, st);
      var step := LookupPatient(patients[|patients| - 1], contacts, done.after);
      Lookup(done.names + step.names, step.after, done.requests + step.requests)
  }

  /** The loop over one more patient is the loop so far, then that patient. */
  lemma LookupAllStep(patients: seq<Patient>, i: nat, contacts: ContactSource, st: Lookups)
    requires i < |patients|
    ensures var done := LookupAll(patients[..i], contacts, st);
            var step := LookupPatient(patients[i], contacts, done.after);
            LookupAll(patients[..i + 1], contacts, st)
              == Lookup(done.names + step.names, step.after, done.requests + step.requests)
  {
    assert patients[..i + 1][..i] == patients[..i];
  }

  /** One patient's lookup keeps every cached entry and caches at most its
      own link; a linked patient moves exactly one counter; a success is a
      new entry; and the name comes from the cache after it, which holds the
      link whenever no fetch failed. */
  lemma LookupPatientFacts(p: Patient, contacts: ContactSource, st: Lookups)
    ensures var r := LookupPatient(p, contacts, st);
      && |r.names| == 1 && Extends(st.cache, r.after.cache)
      && (forall u :: u in r.after.cache ==> u in st.cache || DoctorLink(p) == Some(u))
      && r.after.hits + r.after.success + r.after.failed
         == st.hits + st.success + st.failed + (if DoctorLink(p).Some? then 1 else 0)
      && r.after.success + |st.cache| == st.success + |r.after.cache|
      && r.after.failed >= st.failed
      && (r.names[0].Some? ==> DoctorLink(p).Some?)
      && NameFromCache(p, r.names[0], r.after.cache)
      && (r.after.failed == st.failed ==> FullyResolved(p, r.names[0], r.after.cache))
  {
  }

  /** The loop's cache keeps every entry it started with and gains only the
      patients' links; each lookup moves exactly one counter and each success
      adds one entry; and no more names are known than lookups were made. */
  lemma {:induction false} LookupCounters(patients: seq<Patient>, contacts: ContactSource, st: Lookups)
    ensures var r := LookupAll(patients, contacts, st);
      && Extends(st.cache, r.after.cache)
      && (forall u :: u in r.after.cache ==> u in st.cache || u in LinkSet(patients))
      && r.after.hits + r.after.success + r.after.failed == st.hits + st.success + st.failed + LinkedCount(patients)
      && r.after.success + |st.cache| == st.success + |r.after.cache|
      && r.after.failed >= st.failed
      && KnownCount(r.names) <= LinkedCount(patients)
  {
    if patients != [] {
      var n := |patients| - 1;
      LookupCounters(patients[..n], contacts, st);
      var done := LookupAll(patients[..n], contacts, st);
      var step := LookupPatient(patients[n], contacts, done.after);
      LookupPatientFacts(patients[n], contacts, done.after);
      assert (done.names + step.names)[..n] == done.names;
    }
  }

  /** Every name of the loop is the name of the final cache's contact for its
      link, and with no failed fetch every linked patient resolves through
      the final cache. */
  lemma {:induction false} LookupNames(patients: seq<Patient>, contacts: ContactSource, st: Lookups)
    ensures var r := LookupAll(patients, contacts, st);
      && (forall j :: 0 <= j < |patients| ==> NameFromCache(patients[j], r.names[j], r.after.cache))
      && (r.after.failed == st.failed ==>
            forall j :: 0 <= j < |patients| ==> FullyResolved(patients[j], r.names[j], r.after.cache))
  {
    if patients != [] {
      var n := |patients| - 1;
      var init := patients[..n];
      LookupNames(init, contacts, st);
      LookupCounters(init, contacts, st);
      var done := LookupAll(init, contacts, st);
      var step := LookupPatient(patients[n], contacts, done.after);
      LookupPatientFacts(patients[n], contacts, done.after);
      var names := done.names + step.names;
      var noFailure := step.after.failed == st.failed;
      assert noFailure ==> done.after.failed == st.failed && step.after.failed == done.after.failed;
      forall j | 0 <= j <= n
        ensures NameFromCache(patients[j], names[j], step.after.cache)
        ensures noFailure ==> FullyResolved(patients[j], names[j], step.after.cache)
      {
        if j < n {
          assert init[j] == patients[j] && names[j] == done.names[j];
          ResolutionSurvivesGrowth(patients[j], names[j], done.after.cache, step.after.cache);
        } else {
          assert names[j] == step.names[0];
        }
      }
    }
  }

  /** One patient's requests: none, or one delay and one contact request
      for its link, counted as a success or a failure. */
  lemma LookupPatientRequests(p: Patient, contacts: ContactSource, st: Lookups)
    ensures var r := LookupPatient(p, contacts, st);
      && |r.requests| + 2 * (st.success + st.failed) == 2 * (r.after.success + r.after.failed)
      && forall i :: 0 <= i < |r.requests| ==>
           r.requests[i] == Delay(RequestDelayMs) || (r.requests[i].GetContact? && DoctorLink(p) == Some(r.requests[i].url))
  {
  }

  /** The loop's requests: one delay and one contact request per counted
      success or failure, each for one of the patients' links, and never a
      page request. */
  lemma {:induction false} LookupRequests(patients: seq<Patient>, contacts: ContactSource, st: Lookups)
    ensures var r := LookupAll(patients, contacts, st);
      && |r.requests| + 2 * (st.success + st.failed) == 2 * (r.after.success + r.after.failed)
      && forall i :: 0 <= i < |r.requests| ==>
           r.requests[i] == Delay(RequestDelayMs) || (r.requests[i].GetContact? && r.requests[i].url in LinkSet(patients))
  {
    if patients != [] {
      var n := |patients| - 1;
      LookupRequests(patients[..n], contacts, st);
      var done := LookupAll(patients[..n], contacts, st);
      var step := LookupPatient(patients[n], contacts, done.after);
      LookupPatientRequests(patients[n], contacts, done.after);
      var requests := done.requests + step.requests;
      forall i | 0 <= i < |requests|
        ensures requests[i] == Delay(RequestDelayMs) || (requests[i].GetContact? && requests[i].url in LinkSet(patients))
      {
        if i >= |done.requests| {
          assert requests[i] == step.requests[i - |done.requests|];
        }
      }
    }
  }

  /** Where the loop's names and failures come from: a cache filled from
      `contacts` stays so, every name is the name of a contact that
      `contacts` returned for that patient's link, and a counted failure is
      a failed request for one of the patients' links. */
  lemma {:induction false} LookupSourced(patients: seq<Patient>, contacts: ContactSource, st: Lookups)
    requires FromSource(st.cache, contacts)
    ensures var r := LookupAll(patients, contacts, st);
      && FromSource(r.after.cache, contacts)
      && (r.after.failed > st.failed ==> FailedAmong(contacts, LinkSet(patients)))
  {
    if patients != [] {
      var n := |patients| - 1;
      LookupSourced(patients[..n], contacts, st);
      var done := LookupAll(patients[..n], contacts, st);
      var link := DoctorLink(patients[n]);
      if link.Some? && link.value !in done.after.cache {
        var request := done.after.success + done.after.failed;
        match Reply(contacts, request, link.value)
        case Success(c) =>
          assert contacts(request, link.value) == Success(c);
        case Failure(_) =>
          assert ContactFailed(contacts, link.value) by { assert contacts(request, link.value).Failure?; }
      }
    }
  }

  /** A name resolved through a cache filled from `contacts` is the name of
      a contact that `contacts` returned for the patient's link. */
  lemma SourcedFromCache(p: Patient, name: Option<string>, cache: map<string, Contact>, contacts: ContactSource)
    requires FromSource(cache, contacts)
    ensures NameFromCache(p, name, cache) && name.Some? ==> NameFromSource(p, name, contacts)
    ensures FullyResolved(p, name, cache) && DoctorLink(p).Some? ==> NameFromSource(p, name, contacts)
  {
    if DoctorLink(p).Some? && DoctorLink(p).value in cache {
      var url := DoctorLink(p).value;
      var n: nat :| contacts(n, url) == Success(cache[url]);
      assert contacts(n, url).Success?;
    }
  }

  /** Every doctor link of patients that all resolved through `cache` is cached. */
  lemma {:induction false} LinksCached(patients: seq<Patient>, cache: map<string, Contact>)
    requires forall j :: 0 <= j < |patients| && DoctorLink(patients[j]).Some? ==> DoctorLink(patients[j]).value in cache
    ensures LinkSet(patients) <= cache.Keys
  {
    if patients != [] {
      var n := |patients| - 1;
      assert forall j :: 0 <= j < n ==> patients[..n][j] == patients[j];
      LinksCached(patients[..n], cache);
    }
  }

  /** What the `complete` event of a run over `patients` reports, when their
      doctors resolved to `resolved` and the contact counters ended at
      `debug`: `resolved` and `debug` are what the tally loop gives from an
      empty cache, and the event holds the patient count, the known count
      and the top twenty of the tally of `resolved`. */
  ghost predicate CompleteReport(last: Event, patients: seq<Patient>, resolved: seq<Option<string>>, debug: Stats,
                                 contacts: ContactSource) {
    var r := LookupAll(patients, contacts, NoLookups);
    && resolved == r.names
    && debug == Stats(r.after.success, r.after.failed, r.after.hits)
    && (forall name :: name in KeyOrder(resolved) ==> name in Histogram(resolved))
    && last == Complete(|patients|, KnownCount(resolved),
                        TopDoctors(Entries(KeyOrder(resolved), Histogram(resolved))), debug)
  }

  /** The counters of a `complete` event add up to one per lookup, with no
      more successes than distinct doctor links and no more known patients
      than lookups; when no contact fetch failed, there is one success per
      distinct doctor link and a cache hit for every other lookup. */
  lemma CompleteReportCounts(last: Event, patients: seq<Patient>, resolved: seq<Option<string>>, debug: Stats,
                             contacts: ContactSource)
    requires CompleteReport(last, patients, resolved, debug, contacts)
    ensures last.Complete? && last.totalPatients == |patients| && last.debug == debug
    ensures last.patientsWithKnownDoctor <= LinkedCount(patients)
    ensures debug.contactCacheHits + debug.contactFetchSuccess + debug.contactFetchFailed == LinkedCount(patients)
    ensures debug.contactFetchSuccess <= |LinkSet(patients)|
    ensures debug.contactFetchFailed == 0 ==>
              && debug.contactFetchSuccess == |LinkSet(patients)|
              && debug.contactCacheHits == LinkedCount(patients) - |LinkSet(patients)|
  {
    var r := LookupAll(patients, contacts, NoLookups);
    LookupCounters(patients, contacts, NoLookups);
    LookupNames(patients, contacts, NoLookups);
    assert r.after.cache.Keys <= LinkSet(patients);
    SubsetSize(r.after.cache.Keys, LinkSet(patients));
    if debug.contactFetchFailed == 0 {
      assert forall j :: 0 <= j < |patients| ==> FullyResolved(patients[j], resolved[j], r.after.cache);
      LinksCached(patients, r.after.cache);
      assert r.after.cache.Keys == LinkSet(patients);
    }
  }

  /** The names of a `complete` event: every tallied name is the name of a
      contact that `contacts` returned for that patient's link, as is every
      linked patient's name when no fetch failed; patients with the same
      link never get two different names; and a counted failure is a failed
      request for one of the patients' links. */
  lemma CompleteReportSources(last: Event, patients: seq<Patient>, resolved: seq<Option<string>>, debug: Stats,
                              contacts: ContactSource)
    requires CompleteReport(last, patients, resolved, debug, contacts)
    ensures forall j :: 0 <= j < |resolved| && resolved[j].Some? ==> NameFromSource(patients[j], resolved[j], contacts)
    ensures debug.contactFetchFailed == 0 ==>
              forall j :: 0 <= j < |resolved| && DoctorLink(patients[j]).Some? ==>
                NameFromSource(patients[j], resolved[j], contacts)
    ensures forall i, j ::
              (0 <= i < |resolved| && 0 <= j < |resolved| && resolved[i].Some? && resolved[j].Some?
               && DoctorLink(patients[i]) == DoctorLink(patients[j])) ==> resolved[i] == resolved[j]
    ensures debug.contactFetchFailed > 0 ==> FailedAmong(contacts, LinkSet(patients))
  {
    var r := LookupAll(patients, contacts, NoLookups);
    LookupNames(patients, contacts, NoLookups);
    LookupSourced(patients, contacts, NoLookups);
    forall j | 0 <= j < |resolved| {
      SourcedFromCache(patients[j], resolved[j], r.after.cache, contacts);
    }
  }

  /** A patient whose referring doctor links to `url`. */
  function ReferredBy(url: string): (p: Patient)
    requires url != ""
    ensures DoctorLink(p) == Some(url)
  {
    Patient(0, None, None, Some(ReferringDoctor(Some(DoctorLinks(Some(url))))), None)
  }

  /** Contact request 0 fails and every later one returns `c`. */
  function FailingFirst(c: Contact): ContactSource {
    (n: nat, url: string) => if n == 0 then Failure(ClinikoFetch.NetworkError("down")) else Success(c)
  }

  /** A failed request does not stop the lookups after it: when request 0
      fails and every later one returns `c`, of two patients with different
      links the first gets no name and the second gets `c`'s name, with one
      success and one failure counted. */
  lemma LookupAfterFailureExample(c: Contact)
    ensures var r := LookupAll([ReferredBy("u"), ReferredBy("v")], FailingFirst(c), NoLookups);
            && r.names == [None, FormatDoctorName(c)] && r.after == Lookups(map["v" := c], 1, 1, 0)
            && r.requests == [Delay(RequestDelayMs), GetContact("u"), Delay(RequestDelayMs), GetContact("v")]
  {
    var patients, contacts := [ReferredBy("u"), ReferredBy("v")], FailingFirst(c);
    var afterFirst := Lookups(map[], 0, 1, 0);
    var failed := [Delay(RequestDelayMs), GetContact("u")];
    assert LookupAll(patients[..1], contacts, NoLookups) == Lookup([None], afterFirst, failed) by {
      LookupAllStep(patients, 0, contacts, NoLookups);
      assert patients[..0] == [];
    }
    assert LookupAll(patients, contacts, NoLookups)
        == Lookup([None] + [FormatDoctorName(c)], Lookups(map["v" := c], 1, 1, 0),
                  failed + [Delay(RequestDelayMs), GetContact("v")]) by {
      LookupAllStep(patients, 1, contacts, NoLookups);
      assert patients[..2] == patients;
    }
  }

  /** Contact request 0 returns `first` and every later one `later`. */
  function ChangingReplies(first: Contact, later: Contact): ContactSource {
    (n: nat, url: string) => if n == 0 then Success(first) else Success(later)
  }

  /** One link, one name: once a link is cached, a later patient with the
      same link gets the cached contact's name, whatever a new request would
      have returned, and counts a cache hit. */
  lemma SharedLinkExample(first: Contact, later: Contact)
    ensures var r := LookupAll([ReferredBy("u"), ReferredBy("u")], ChangingReplies(first, later), NoLookups);
            && r.names == [FormatDoctorName(first), FormatDoctorName(first)]
            && r.after == Lookups(map["u" := first], 1, 0, 1)
            && r.requests == [Delay(RequestDelayMs), GetContact("u")]
  {
    var patients, contacts := [ReferredBy("u"), ReferredBy("u")], ChangingReplies(first, later);
    var afterFirst := Lookups(map["u" := first], 1, 0, 0);
    var fetched := [Delay(RequestDelayMs), GetContact("u")];
    assert LookupAll(patients[..1], contacts, NoLookups) == Lookup([FormatDoctorName(first)], afterFirst, fetched) by {
      LookupAllStep(patients, 0, contacts, NoLookups);
      assert patients[..0] == [];
    }
    assert LookupAll(patients, contacts, NoLookups)
        == Lookup([FormatDoctorName(first)] + [FormatDoctorName(first)], Lookups(map["u" := first], 1, 0, 1),
                  fetched + []) by {
      LookupAllStep(patients, 1, contacts, NoLookups);
      assert patients[..2] == patients;
    }
  }

  /** Page k is where collection stops: pages 1..k-1 succeeded, each with a
      next link, and page k failed, had no next link or was the 200th. */
  ghost predicate EndsAt(pages: PageSource, k: nat) {
    && 1 <= k <= MaxPages && PagesOk(pages, k - 1) && NextLinked(pages, k)
    && (pages(k).Failure? || k == MaxPages || !HasNext(pages(k).value))
  }

  /** The pages decide where collection stops. */
  lemma EndsAtUnique(pages: PageSource, k: nat, k': nat)
    requires EndsAt(pages, k) && EndsAt(pages, k')
    ensures k == k'
  {
    NextLinkedMeans(pages, k);
    NextLinkedMeans(pages, k');
  }

  /** What one run of the route amounts to, when it requested pages 1..k,
      made the delays and requests of `trace`, and `last` is the final event
      of its stream `events`: collection stopped at page k; and either page k
      failed, the stream is the `fetching` reports followed by an `error`
      event with the failure's message, and no contact was looked up; or page
      k succeeded, the patients are those of pages 1..k, the contact requests
      are those of the tally loop over them from an empty cache, and the
      stream is the `fetching` reports, the `processing` reports and the
      `complete` event of that tally. */
  ghost predicate RunOutcome(events: seq<Event>, trace: seq<Action>, pages: PageSource, contacts: ContactSource,
                             k: nat, patients: seq<Patient>, resolved: seq<Option<string>>, last: Event,
                             debug: Stats)
  {
    && EndsAt(pages, k)
    && (last.Error? <==> pages(k).Failure?)
    && (pages(k).Failure? ==> FailedRun(events, trace, pages, k, patients, resolved, last, debug))
    && (pages(k).Success? ==> CompletedRun(events, trace, pages, contacts, k, patients, resolved, last, debug))
  }

  /** RunOutcome when page k failed. */
  ghost predicate FailedRun(events: seq<Event>, trace: seq<Action>, pages: PageSource, k: nat,
                            patients: seq<Patient>, resolved: seq<Option<string>>, last: Event, debug: Stats)
    requires 1 <= k && PagesOk(pages, k - 1) && pages(k).Failure?
  {
    && last == Error(ClinikoFetch.Message(pages(k).error))
    && events == [Fetching(0, 0)] + FetchingReports(pages, k - 1) + [last]
    && trace == PagesRequested([], k)
    && patients == [] && resolved == [] && debug == Stats(0, 0, 0)
  }

  /** RunOutcome when page k succeeded. */
  ghost predicate CompletedRun(events: seq<Event>, trace: seq<Action>, pages: PageSource, contacts: ContactSource,
                               k: nat, patients: seq<Patient>, resolved: seq<Option<string>>, last: Event,
                               debug: Stats)
    requires 1 <= k && PagesOk(pages, k - 1) && pages(k).Success?
  {
    CollectedStep(pages, k);
    && patients == Collected(pages, k)
    && events == [Fetching(0, 0)] + FetchingReports(pages, k) + [Processing(0, |patients|, 0)]
                 + ProcessingReports(patients, |patients|) + [last]
    && trace == PagesRequested([], k) + LookupAll(patients, contacts, NoLookups).requests
    && CompleteReport(last, patients, resolved, debug, contacts)
  }

  /** A run whose page k failed. */
  lemma FailedRunOutcome(events: seq<Event>, opening: seq<Event>, trace: seq<Action>, pages: PageSource,
                         contacts: ContactSource, k: nat, last: Event)
    requires 1 <= k <= MaxPages && PagesOk(pages, k - 1) && NextLinked(pages, k)
    requires pages(k).Failure? && last == Error(ClinikoFetch.Message(pages(k).error))
    requires opening == [Fetching(0, 0)] + FetchingReports(pages, k - 1) && events == opening + [last]
    requires trace == PagesRequested([], k)
    ensures RunOutcome(events, trace, pages, contacts, k, [], [], last, Stats(0, 0, 0))
  {
  }

  /** A run whose page k succeeded as the last page. */
  lemma CompletedRunOutcome(events: seq<Event>, opening: seq<Event>, trace: seq<Action>, pages: PageSource,
                            contacts: ContactSource, k: nat, patients: seq<Patient>, resolved: seq<Option<string>>,
                            last: Event, debug: Stats)
    requires 1 <= k <= MaxPages && PagesOk(pages, k - 1) && NextLinked(pages, k)
    requires pages(k).Success? && (k == MaxPages || !HasNext(pages(k).value))
    requires patients == Collected(pages, k)
    requires opening == [Fetching(0, 0)] + FetchingReports(pages, k)
    requires events == opening + [Processing(0, |patients|, 0)] + ProcessingReports(patients, |patients|) + [last]
    requires trace == PagesRequested([], k) + LookupAll(patients, contacts, NoLookups).requests
    requires CompleteReport(last, patients, resolved, debug, contacts)
    ensures RunOutcome(events, trace, pages, contacts, k, patients, resolved, last, debug)
  {
  }

  /** The pages and contacts decide the whole run: the pages read, the
      patients, the names, the counters, the stream and the requests. */
  lemma RunOutcomeUnique(pages: PageSource, contacts: ContactSource,
                         events: seq<Event>, trace: seq<Action>, k: nat, patients: seq<Patient>,
                         resolved: seq<Option<string>>, last: Event, debug: Stats,
                         events': seq<Event>, trace': seq<Action>, k': nat, patients': seq<Patient>,
                         resolved': seq<Option<string>>, last': Event, debug': Stats)
    requires RunOutcome(events, trace, pages, contacts, k, patients, resolved, last, debug)
    requires RunOutcome(events', trace', pages, contacts, k', patients', resolved', last', debug')
    ensures k == k' && patients == patients' && resolved == resolved' && debug == debug'
    ensures last == last' && events == events' && trace == trace'
  {
    EndsAtUnique(pages, k, k');
  }

  /** The requests of a run: pages 1..k first, in order, each after a
      delay; then only delays and contact requests for the patients' links. */
  lemma RunRequests(events: seq<Event>, trace: seq<Action>, pages: PageSource, contacts: ContactSource, k: nat,
                    patients: seq<Patient>, resolved: seq<Option<string>>, last: Event, debug: Stats)
    requires RunOutcome(events, trace, pages, contacts, k, patients, resolved, last, debug)
    ensures 2 * k <= |trace| && trace[..2 * k] == PagesRequested([], k)
    ensures forall i :: 2 * k <= i < |trace| ==>
              trace[i] == Delay(RequestDelayMs) || (trace[i].GetContact? && trace[i].url in LinkSet(patients))
  {
    if pages(k).Success? {
      LookupRequests(patients, contacts, NoLookups);
      PagesThenContacts(trace, k, LookupAll(patients, contacts, NoLookups).requests, LinkSet(patients));
    } else {
      PagesThenContacts(trace, k, [], LinkSet(patients));
    }
  }

  /** Pages 1..k requested, followed by delays and contact requests for `urls`. */
  lemma PagesThenContacts(trace: seq<Action>, k: nat, requests: seq<Action>, urls: set<string>)
    requires trace == PagesRequested([], k) + requests
    requires forall i :: 0 <= i < |requests| ==>
               requests[i] == Delay(RequestDelayMs) || (requests[i].GetContact? && requests[i].url in urls)
    ensures 2 * k <= |trace| && trace[..2 * k] == PagesRequested([], k)
    ensures forall i :: 2 * k <= i < |trace| ==>
              trace[i] == Delay(RequestDelayMs) || (trace[i].GetContact? && trace[i].url in urls)
  {
    PagesRequestedOrder([], k);
    assert trace[..2 * k] == PagesRequested([], k);
    assert forall i :: 2 * k <= i < |trace| ==> trace[i] == requests[i - 2 * k];
  }

  /** The stream of every run is well formed: it opens with `fetching`, its
      phases never go back, its counts never go back, and exactly one
      `complete` or `error` event ends it. */
  lemma RunOutcomeIsWellFormed(events: seq<Event>, trace: seq<Action>, pages: PageSource, contacts: ContactSource,
                               k: nat, patients: seq<Patient>, resolved: seq<Option<string>>, last: Event,
                               debug: Stats)
    requires RunOutcome(events, trace, pages, contacts, k, patients, resolved, last, debug)
    ensures WellFormedStream(events)
  {
    if pages(k).Failure? {
      FetchingReportsShape(pages, k - 1);
      FailedStreamIsWellFormed(FetchingReports(pages, k - 1), last.message);
    } else {
      CollectedStep(pages, k);
      FetchingReportsShape(pages, k);
      ProcessingReportsShape(patients, |patients|);
      CompletedStreamIsWellFormed(FetchingReports(pages, k), |patients|, ProcessingReports(patients, |patients|), last);
    }
  }

  /** One more patient adds its link, if any, to the count and the set. */
  lemma LinkedStep(patients: seq<Patient>, i: nat)
    requires i < |patients|
    ensures var link := DoctorLink(patients[i]);
      && LinkedCount(patients[..i + 1]) == LinkedCount(patients[..i]) + (if link.Some? then 1 else 0)
      && LinkSet(patients[..i + 1]) == LinkSet(patients[..i]) + (if link.Some? then {link.value} else {})
  {
    assert patients[..i + 1][..i] == patients[..i];
  }

  lemma SeqAppendAssoc<T>(a: seq<T>, b: seq<T>, c: seq<T>)
    ensures a + b + c == a + (b + c)
  {
  }

  /** One more successful page extends the collection and its reports. */
  lemma CollectedStep(pages: PageSource, k: nat)
    requires k >= 1 && PagesOk(pages, k - 1) && pages(k).Success?
    ensures PagesOk(pages, k)
    ensures Collected(pages, k) == Collected(pages, k - 1) + pages(k).value.patients
    ensures FetchingReports(pages, k)
         == FetchingReports(pages, k - 1) + [Fetching(|Collected(pages, k)|, pages(k).value.totalEntries)]
  {
  }

  lemma {:induction false} SubsetSize<T>(a: set<T>, b: set<T>)
    requires a <= b
    ensures |a| <= |b|
  {
    if a != {} {
      var x :| x in a;
      SubsetSize(a - {x}, b - {x});
    }
  }

  // ---------------------------------------------------------------------------
  // The per-request state of one run

  /** The tally's update for one patient: a resolved name adds one to its
      count, starting from 0, and a name seen for the first time joins the
      key order at the end. */
  method CountName(counts: map<string, nat>, order: seq<string>, known: nat,
                   ghost resolved: seq<Option<string>>, doctorName: Option<string>)
    returns (newCounts: map<string, nat>, newOrder: seq<string>, newKnown: nat)
    requires counts == Histogram(resolved) && order == KeyOrder(resolved) && known == KnownCount(resolved)
    ensures newCounts == Histogram(resolved + [doctorName]) && newOrder == KeyOrder(resolved + [doctorName])
    ensures newKnown == KnownCount(resolved + [doctorName])
  {
    newCounts, newOrder, newKnown := counts, order, known;
    if doctorName.Some? {
      var name := doctorName.value;
      KeyOrderMatchesKeys(resolved);
      newOrder := if name in newCounts then newOrder else newOrder + [name];
      newCounts := newCounts[name := (if name in newCounts then newCounts[name] else 0) + 1];
      newKnown := newKnown + 1;
    }
    TallyStep(resolved, doctorName);
  }

  class ReferralRun {
    /** `contactCache`: contact records by URL. */
    var cache: map<string, Contact>
    var contactFetchSuccess: nat
    var contactFetchFailed: nat
    var contactCacheHits: nat
    /** The delays and requests the route made, in order. */
    var trace: seq<Action>
    /** The events enqueued on the stream, in order. */
    var events: seq<Event>
    var closed: bool

    /** Every cached URL was fetched successfully once, every contact request
        was counted as a success or a failure, and every request waited first. */
    ghost predicate Valid()
      reads this`cache, this`contactFetchSuccess, this`contactFetchFailed, this`trace
    {
      && contactFetchSuccess == |cache|
      && contactFetchSuccess + contactFetchFailed == ContactRequests(trace)
      && cache.Keys <= RequestedUrls(trace)
      && Paced(trace)
    }

    /** The cache and counters, as the tally loop's specification sees them. */
    ghost function State(): Lookups
      reads this`cache, this`contactFetchSuccess, this`contactFetchFailed, this`contactCacheHits
    {
      Lookups(cache, contactFetchSuccess, contactFetchFailed, contactCacheHits)
    }

    /** Fresh cache and counters for each request. */
    constructor ()
      ensures Valid() && !closed
      ensures cache == map[] && trace == [] && events == []
      ensures contactFetchSuccess == 0 && contactFetchFailed == 0 && contactCacheHits == 0
    {
      cache := map[];
      contactFetchSuccess, contactFetchFailed, contactCacheHits := 0, 0, 0;
      trace, events, closed := [], [], false;
    }

    /** `sendProgress`: enqueue one event. */
    method SendProgress(e: Event)
      requires !closed
      modifies this`events
      ensures events == old(events) + [e]
    {
      events := events + [e];
    }

    /** `controller.close()`. */
    method Close()
      requires !closed
      modifies this`closed
      ensures closed
    {
      closed := true;
    }

    /** `await delay(REQUEST_DELAY_MS)` followed by one page request. */
    method RequestPage(pages: PageSource, page: nat) returns (data: Result<PatientsPage, ClinikoFetch.FetchError>)
      requires Valid()
      modifies this`trace
      ensures Valid() && trace == old(trace) + [Delay(RequestDelayMs), GetPage(page)]
      ensures data == PageReply(pages, page)
    {
      AppendRequest(trace, GetPage(page));
      trace := trace + [Delay(RequestDelayMs), GetPage(page)];
      data := pages(page);
    }

    /** One round of the pagination loop: wait, fetch page `page`, and on
        success append its patients and report the count so far. `before`
        and `opening` are the trace and the events from before the loop, and
        `done` the pages read so far. */
    method CollectPage(pages: PageSource, page: nat, allPatients: seq<Patient>,
                       ghost done: nat, ghost before: seq<Action>, ghost opening: seq<Event>)
      returns (data: Result<PatientsPage, ClinikoFetch.FetchError>, collected: seq<Patient>)
      requires Valid() && !closed && page == done + 1
      requires PagesOk(pages, done) && allPatients == Collected(pages, done)
      requires trace == PagesRequested(before, done)
      requires events == opening + FetchingReports(pages, done)
      modifies this`trace, this`events
      ensures Valid() && trace == PagesRequested(before, page)
      ensures data == PageReply(pages, page)
      ensures data.Success? ==>
        && PagesOk(pages, page) && collected == Collected(pages, page)
        && events == opening + FetchingReports(pages, page)
      ensures data.Failure? ==> events == opening + FetchingReports(pages, done)
    {
      data := RequestPage(pages, page);
      collected := allPatients;
      if data.Success? {
        collected := allPatients + data.value.patients;
        CollectedStep(pages, page);
        SendProgress(Fetching(|collected|, data.value.totalEntries));
        SeqAppendAssoc(opening, FetchingReports(pages, done), [Fetching(|collected|, data.value.totalEntries)]);
      }
    }

    /** `fetchContact`: a cached URL is a hit and costs no request; otherwise
        the route waits, requests the contact, and on success caches it. */
    method FetchContact(url: string, contacts: ContactSource) returns (contact: Option<Contact>)
      requires Valid()
      modifies this`cache, this`contactFetchSuccess, this`contactFetchFailed, this`contactCacheHits, this`trace
      ensures Valid()
      ensures forall u :: u in old(cache) ==> u in cache && cache[u] == old(cache)[u]
      ensures contact.Some? ==> url in cache && cache[url] == contact.value
      ensures url in old(cache) ==>
        && contact == Some(old(cache)[url])
        && cache == old(cache) && trace == old(trace)
        && contactCacheHits == old(contactCacheHits) + 1
        && contactFetchSuccess == old(contactFetchSuccess) && contactFetchFailed == old(contactFetchFailed)
      ensures url !in old(cache) ==>
        && trace == old(trace) + [Delay(RequestDelayMs), GetContact(url)]
        && contactCacheHits == old(contactCacheHits)
        && match Reply(contacts, old(contactFetchSuccess + contactFetchFailed), url)
           case Success(c) =>
             && contact == Some(c) && cache == old(cache)[url := c]
             && contactFetchSuccess == old(contactFetchSuccess) + 1
             && contactFetchFailed == old(contactFetchFailed)
           case Failure(_) =>
             && contact == None && cache == old(cache)
             && contactFetchSuccess == old(contactFetchSuccess)
             && contactFetchFailed == old(contactFetchFailed) + 1
    {
      if url in cache {
        contactCacheHits := contactCacheHits + 1;
        return Some(cache[url]);
      }
      var reply := contacts(contactFetchSuccess + contactFetchFailed, url);
      AppendRequest(trace, GetContact(url));
      trace := trace + [Delay(RequestDelayMs), GetContact(url)];
      match reply {
        case Success(c) =>
          cache := cache[url := c];
          contactFetchSuccess := contactFetchSuccess + 1;
          contact := Some(c);
        case Failure(_) =>
          contactFetchFailed := contactFetchFailed + 1;
          contact := None;
      }
    }

    /** A cached or fetched contact for `url`, formatted as a doctor name:
        a cached URL is a hit that gives its cached contact's name; otherwise
        the reply to the request decides, a success giving its contact's name
        and a failure giving none. */
    method NameOfDoctor(url: string, contacts: ContactSource) returns (doctorName: Option<string>)
      requires Valid()
      modifies this`cache, this`contactFetchSuccess, this`contactFetchFailed, this`contactCacheHits, this`trace
      ensures Valid()
      ensures url in old(cache) ==>
        && doctorName == FormatDoctorName(old(cache)[url]) && cache == old(cache) && trace == old(trace)
        && contactCacheHits == old(contactCacheHits) + 1
        && contactFetchSuccess == old(contactFetchSuccess) && contactFetchFailed == old(contactFetchFailed)
      ensures url !in old(cache) ==>
        && trace == old(trace) + [Delay(RequestDelayMs), GetContact(url)]
        && contactCacheHits == old(contactCacheHits)
        && match Reply(contacts, old(contactFetchSuccess + contactFetchFailed), url)
           case Success(c) =>
             && doctorName == FormatDoctorName(c) && cache == old(cache)[url := c]
             && contactFetchSuccess == old(contactFetchSuccess) + 1
             && contactFetchFailed == old(contactFetchFailed)
           case Failure(_) =>
             && doctorName == None && cache == old(cache)
             && contactFetchSuccess == old(contactFetchSuccess)
             && contactFetchFailed == old(contactFetchFailed) + 1
    {
      var contact := FetchContact(url, contacts);
      doctorName := None;
      if contact.Some? {
        doctorName := FormatDoctorName(contact.value);
      }
    }

    /** `processed % 50 === 0 || processed === allPatients.length`: report. */
    method ReportProcessed(processed: nat, total: nat, lookups: nat)
      requires !closed
      modifies this`events
      ensures events == old(events) + if ReportsAt(processed, total) then [Processing(processed, total, lookups)] else []
    {
      if processed % ReportEvery == 0 || processed == total {
        SendProgress(Processing(processed, total, lookups));
      }
    }

    /** The pagination loop: pages 1, 2, ... each after one delay, until a
        page has no next link or 200 pages have been read; a failing page
        ends the collection with its error. */
    method CollectPatients(pages: PageSource)
      returns (result: Result<seq<Patient>, ClinikoFetch.FetchError>, pagesFetched: nat)
      requires Valid() && !closed
      modifies this`trace, this`events
      ensures Valid()
      ensures 1 <= pagesFetched <= MaxPages
      ensures trace == PagesRequested(old(trace), pagesFetched)
      ensures PagesOk(pages, pagesFetched - 1)
      ensures NextLinked(pages, pagesFetched)
      ensures result.Success? ==>
        && PageReply(pages, pagesFetched).Success?
        && (pagesFetched == MaxPages || !HasNext(PageReply(pages, pagesFetched).value))
        && result.value == Collected(pages, pagesFetched)
        && events == old(events) + FetchingReports(pages, pagesFetched)
      ensures result.Failure? ==>
        && PageReply(pages, pagesFetched).Failure? && result.error == PageReply(pages, pagesFetched).error
        && events == old(events) + FetchingReports(pages, pagesFetched - 1)
    {
      var allPatients: seq<Patient> := [];
      var page: nat := 1;
      var hasMore := true;
      var fetched: nat := 0;
      while hasMore
        invariant page == fetched + 1 <= MaxPages
        invariant Valid() && trace == PagesRequested(old(trace), fetched)
        invariant PagesOk(pages, fetched)
        invariant NextLinked(pages, fetched)
        invariant hasMore ==> NextLinked(pages, page)
        invariant !hasMore ==> fetched >= 1 && !HasNext(pages(fetched).value)
        invariant allPatients == Collected(pages, fetched)
        invariant events == old(events) + FetchingReports(pages, fetched)
        decreases MaxPages - page
      {
        var data;
        data, allPatients := CollectPage(pages, page, allPatients, fetched, old(trace), old(events));
        if data.Failure? {
          return Failure(data.error), page;
        }
        hasMore := HasNext(data.value);
        fetched := page;
        page := page + 1;
        if page > MaxPages {
          break;
        }
      }
      result, pagesFetched := Success(allPatients), fetched;
    }

    /** The tally loop has looked up patients[..i], starting from cache and
        counters `start` and trace `before`: the names, the cache, the
        counters and the requests since are those LookupAll gives. */
    ghost predicate LookedUp(patients: seq<Patient>, i: nat, contacts: ContactSource, start: Lookups,
                             before: seq<Action>, resolved: seq<Option<string>>)
      reads this
      requires i <= |patients|
    {
      var done := LookupAll(patients[..i], contacts, start);
      done.names == resolved && done.after == State() && trace == before + done.requests
    }

    /** One patient of the tally loop: a doctor link is one lookup through
        the cache, and a resolved, formatted name adds one to its count. */
    method TallyPatient(patients: seq<Patient>, i: nat, contacts: ContactSource,
                        counts: map<string, nat>, order: seq<string>, lookups: nat, known: nat,
                        ghost resolved: seq<Option<string>>, ghost start: Lookups, ghost before: seq<Action>)
      returns (newCounts: map<string, nat>, newOrder: seq<string>, newLookups: nat, newKnown: nat,
               ghost newResolved: seq<Option<string>>)
      requires Valid() && i < |patients|
      requires counts == Histogram(resolved) && order == KeyOrder(resolved) && known == KnownCount(resolved)
      requires lookups == LinkedCount(patients[..i])
      requires LookedUp(patients, i, contacts, start, before, resolved)
      modifies this`cache, this`contactFetchSuccess, this`contactFetchFailed, this`contactCacheHits, this`trace
      ensures Valid() && LookedUp(patients, i + 1, contacts, start, before, newResolved)
      ensures newCounts == Histogram(newResolved) && newOrder == KeyOrder(newResolved)
      ensures newKnown == KnownCount(newResolved)
      ensures newLookups == LinkedCount(patients[..i + 1])
    {
      ghost var done := LookupAll(patients[..i], contacts, start);
      var doctorName := ResolvePatient(patients[i], contacts);
      newLookups := if DoctorLink(patients[i]).Some? then lookups + 1 else lookups;
      newCounts, newOrder, newKnown := CountName(counts, order, known, resolved, doctorName);
      newResolved := resolved + [doctorName];
      LinkedStep(patients, i);
      LookupAllStep(patients, i, contacts, start);
      SeqAppendAssoc(before, done.requests, LookupPatient(patients[i], contacts, done.after).requests);
    }

    /** The lookup of one patient's doctor: a doctor link is one lookup
        through the cache, and no link gives no name. */
    method ResolvePatient(p: Patient, contacts: ContactSource) returns (doctorName: Option<string>)
      requires Valid()
      modifies this`cache, this`contactFetchSuccess, this`contactFetchFailed, this`contactCacheHits, this`trace
      ensures Valid()
      ensures var step := LookupPatient(p, contacts, old(State()));
        step.names == [doctorName] && step.after == State() && trace == old(trace) + step.requests
    {
      doctorName := None;
      var doctorLink := DoctorLink(p);
      if doctorLink.Some? {
        doctorName := NameOfDoctor(doctorLink.value, contacts);
      }
    }

    /** The tally loop: every patient in turn, and a `processing` event after
        every 50th and the last. */
    method TallyDoctors(patients: seq<Patient>, contacts: ContactSource)
      returns (counts: map<string, nat>, order: seq<string>, lookups: nat, known: nat,
               ghost resolved: seq<Option<string>>)
      requires Valid() && !closed
      modifies this`cache, this`contactFetchSuccess, this`contactFetchFailed, this`contactCacheHits
      modifies this`trace, this`events
      ensures Valid()
      ensures var run := LookupAll(patients, contacts, old(State()));
        resolved == run.names && State() == run.after && trace == old(trace) + run.requests
      ensures counts == Histogram(resolved) && order == KeyOrder(resolved) && known == KnownCount(resolved)
      ensures lookups == LinkedCount(patients)
      ensures events == old(events) + [Processing(0, |patients|, 0)] + ProcessingReports(patients, |patients|)
    {
      counts, order, lookups, known, resolved := map[], [], 0, 0, [];
      var processed: nat := 0;
      SendProgress(Processing(0, |patients|, 0));
      for i := 0 to |patients|
        invariant Valid() && !closed && LookedUp(patients, i, contacts, old(State()), old(trace), resolved)
        invariant processed == i == |resolved|
        invariant counts == Histogram(resolved) && order == KeyOrder(resolved) && known == KnownCount(resolved)
        invariant lookups == LinkedCount(patients[..i])
        invariant events == old(events) + [Processing(0, |patients|, 0)] + ProcessingReports(patients, i)
      {
        counts, order, lookups, known, resolved :=
          TallyPatient(patients, i, contacts, counts, order, lookups, known, resolved, old(State()), old(trace));
        processed := processed + 1;
        ghost var report := ProcessingReportsStep(patients, i);
        ReportProcessed(processed, |patients|, lookups);
        SeqAppendAssoc(old(events) + [Processing(0, |patients|, 0)], ProcessingReports(patients, i), report);
      }
      assert patients[..|patients|] == patients;
    }

    /** After collection: tally the doctors, rank them, and send `complete`. */
    method Report(allPatients: seq<Patient>, contacts: ContactSource)
      returns (ghost resolved: seq<Option<string>>, last: Event)
      requires Valid() && !closed && State() == NoLookups
      modifies this`cache, this`contactFetchSuccess, this`contactFetchFailed, this`contactCacheHits
      modifies this`trace, this`events
      ensures Valid()
      ensures events == old(events) + [Processing(0, |allPatients|, 0)]
                        + ProcessingReports(allPatients, |allPatients|) + [last]
      ensures trace == old(trace) + LookupAll(allPatients, contacts, NoLookups).requests
      ensures CompleteReport(last, allPatients, resolved, Stats(contactFetchSuccess, contactFetchFailed, contactCacheHits),
                             contacts)
    {
      var counts, order, lookups, known;
      counts, order, lookups, known, resolved := TallyDoctors(allPatients, contacts);
      last := Announce(allPatients, resolved, counts, order, known, contacts);
    }

    /** The `complete` event: the top twenty of the tally and the counters. */
    method Announce(allPatients: seq<Patient>, ghost resolved: seq<Option<string>>,
                    counts: map<string, nat>, order: seq<string>, known: nat, ghost contacts: ContactSource)
      returns (last: Event)
      requires !closed
      requires counts == Histogram(resolved) && order == KeyOrder(resolved) && known == KnownCount(resolved)
      requires var run := LookupAll(allPatients, contacts, NoLookups); resolved == run.names && State() == run.after
      modifies this`events
      ensures events == old(events) + [last]
      ensures CompleteReport(last, allPatients, resolved, Stats(contactFetchSuccess, contactFetchFailed, contactCacheHits),
                             contacts)
    {
      var debug := Stats(contactFetchSuccess, contactFetchFailed, contactCacheHits);
      KeyOrderMatchesKeys(resolved);
      last := Complete(|allPatients|, known, TopDoctors(Entries(order, counts)), debug);
      SendProgress(last);
    }

    /** A failure while collecting page k: one `error` event with the
        failure's message, and the stream is closed. */
    method Fail(ghost pages: PageSource, ghost contacts: ContactSource, ghost k: nat, error: ClinikoFetch.FetchError)
      returns (ghost last: Event)
      requires !closed && 1 <= k <= MaxPages && PagesOk(pages, k - 1) && NextLinked(pages, k)
      requires PageReply(pages, k) == Failure(error) && events == [Fetching(0, 0)] + FetchingReports(pages, k - 1)
      requires trace == PagesRequested([], k) && State() == NoLookups
      modifies this`events, this`closed
      ensures closed
      ensures RunOutcome(events, trace, pages, contacts, k, [], [], last,
                         Stats(contactFetchSuccess, contactFetchFailed, contactCacheHits))
    {
      ghost var opening := events;
      var message := ClinikoFetch.Message(error);
      SendProgress(Error(message));
      Close();
      last := Error(message);
      FailedRunOutcome(events, opening, trace, pages, contacts, k, last);
    }

    /** The patients of pages 1..k are all collected: tally and report them,
        and close the stream. */
    method Finish(ghost pages: PageSource, ghost k: nat, patients: seq<Patient>, contacts: ContactSource)
      returns (ghost resolved: seq<Option<string>>, ghost last: Event)
      requires Valid() && !closed && State() == NoLookups
      requires 1 <= k <= MaxPages && PagesOk(pages, k - 1) && NextLinked(pages, k)
      requires PageReply(pages, k).Success? && (k == MaxPages || !HasNext(PageReply(pages, k).value))
      requires patients == Collected(pages, k) && events == [Fetching(0, 0)] + FetchingReports(pages, k)
      requires trace == PagesRequested([], k)
      modifies this
      ensures Valid() && closed
      ensures RunOutcome(events, trace, pages, contacts, k, patients, resolved, last,
                         Stats(contactFetchSuccess, contactFetchFailed, contactCacheHits))
    {
      ghost var opening := events;
      var complete;
      resolved, complete := Report(patients, contacts);
      Close();
      last := complete;
      CompletedRunOutcome(events, opening, trace, pages, contacts, k, patients, resolved, last,
                          Stats(contactFetchSuccess, contactFetchFailed, contactCacheHits));
    }

    /** What follows the collection of pages 1..k: an `error` event when
        page k failed, the tally and the `complete` event otherwise; the
        stream is closed either way. */
    method Conclude(ghost pages: PageSource, ghost k: nat,
                    collected: Result<seq<Patient>, ClinikoFetch.FetchError>, contacts: ContactSource)
      returns (ghost patients: seq<Patient>, ghost resolved: seq<Option<string>>, ghost last: Event)
      requires Valid() && !closed && State() == NoLookups
      requires 1 <= k <= MaxPages && PagesOk(pages, k - 1) && NextLinked(pages, k)
      requires trace == PagesRequested([], k)
      requires collected.Failure? ==>
        && PageReply(pages, k).Failure? && collected.error == PageReply(pages, k).error
        && events == [Fetching(0, 0)] + FetchingReports(pages, k - 1)
      requires collected.Success? ==>
        && PageReply(pages, k).Success? && (k == MaxPages || !HasNext(PageReply(pages, k).value))
        && collected.value == Collected(pages, k)
        && events == [Fetching(0, 0)] + FetchingReports(pages, k)
      modifies this
      ensures Valid() && closed
      ensures RunOutcome(events, trace, pages, contacts, k, patients, resolved, last,
                         Stats(contactFetchSuccess, contactFetchFailed, contactCacheHits))
    {
      if collected.Failure? {
        patients, resolved := [], [];
        last := Fail(pages, contacts, k, collected.error);
      } else {
        patients := collected.value;
        resolved, last := Finish(pages, k, collected.value, contacts);
      }
    }

    /** The body of the stream: collect, then conclude. */
    method Stream(pages: PageSource, contacts: ContactSource)
      returns (ghost pagesFetched: nat, ghost patients: seq<Patient>, ghost resolved: seq<Option<string>>,
               ghost last: Event)
      requires Valid() && !closed && State() == NoLookups && trace == [] && events == []
      modifies this
      ensures Valid() && closed
      ensures RunOutcome(events, trace, pages, contacts, pagesFetched, patients, resolved, last,
                         Stats(contactFetchSuccess, contactFetchFailed, contactCacheHits))
    {
      SendProgress(Fetching(0, 0));
      assert events == [Fetching(0, 0)];
      var collected;
      collected, pagesFetched := CollectPatients(pages);
      patients, resolved, last := Conclude(pages, pagesFetched, collected, contacts);
    }
  }

  /** `GET`: every request gets its own cache, counters and stream. The
      stream it returns ends closed after one well-formed run, and the run,
      which the pages and contacts decide, requests its pages first and then
      only contacts. */
  method Get(pages: PageSource, contacts: ContactSource) returns (run: ReferralRun)
    ensures fresh(run) && run.Valid() && run.closed
    ensures WellFormedStream(run.events)
    ensures exists k: nat, patients, resolved, last ::
              && RunOutcome(run.events, run.trace, pages, contacts, k, patients, resolved, last,
                            Stats(run.contactFetchSuccess, run.contactFetchFailed, run.contactCacheHits))
              && 2 * k <= |run.trace| && run.trace[..2 * k] == PagesRequested([], k)
              && forall i :: 2 * k <= i < |run.trace| ==>
                   run.trace[i] == Delay(RequestDelayMs)
                   || (run.trace[i].GetContact? && run.trace[i].url in LinkSet(patients))
  {
    run := new ReferralRun();
    ghost var pagesFetched, patients, resolved, last := run.Stream(pages, contacts);
    RunOutcomeIsWellFormed(run.events, run.trace, pages, contacts, pagesFetched, patients, resolved, last,
                           Stats(run.contactFetchSuccess, run.contactFetchFailed, run.contactCacheHits));
    RunRequests(run.events, run.trace, pages, contacts, pagesFetched, patients, resolved, last,
                Stats(run.contactFetchSuccess, run.contactFetchFailed, run.contactCacheHits));
  }
}
