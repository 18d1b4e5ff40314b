/** The progress events of the referrals route (`sendProgress` in
    src/app/api/cliniko/referrals/route.ts): `fetching` events while pages are
    collected, `processing` events while patients are tallied, and one final
    `complete` or `error` event. The human-readable `message` texts of the
    `fetching` and `processing` events are constant and are not modelled. */
module Progress {
  import opened Ranking

  /** The debug counters of the `complete` event. */
  datatype Stats = Stats(contactFetchSuccess: nat, contactFetchFailed: nat, contactCacheHits: nat)

  datatype Event =
    | Fetching(current: nat, total: nat)
    | Processing(current: nat, total: nat, contactLookups: nat)
    | Complete(totalPatients: nat, patientsWithKnownDoctor: nat, referringDoctors: seq<Entry>, debug: Stats)
    | Error(message: string)

  /** Processing progress is reported every this many patients. */
  const ReportEvery: nat := 50

  predicate IsTerminal(e: Event) {
    e.Complete? || e.Error?
  }

  /** fetching, then processing, then the final event. */
  function PhaseRank(e: Event): nat {
    match e
    case Fetching(_, _) => 0
    case Processing(_, _, _) => 1
    case _ => 2
  }

  /** `processed % 50 === 0 || processed === allPatients.length`: always at
      the last patient, and before it exactly at the multiples of 50. */
  function ReportsAt(processed: nat, total: nat): (reports: bool)
    ensures processed == total ==> reports
    ensures processed < total ==> (reports <==> exists m :: 0 <= m <= processed && processed == m * ReportEvery)
  {
    var batches := processed / ReportEvery;
    assert processed == batches * ReportEvery + processed % ReportEvery;
    assert forall m :: 0 <= m && processed == m * ReportEvery ==> processed % ReportEvery == 0;
    processed % ReportEvery == 0 || processed == total
  }

  /** The processed counts, among 1..upto, at which progress is reported. */
  function ReportPoints(upto: nat, total: nat): seq<nat> {
    if upto == 0 then []
    else ReportPoints(upto - 1, total) + (if ReportsAt(upto, total) then [upto] else [])
  }

  /** The report points are strictly increasing, are exactly the counts in
      1..upto that satisfy the cadence, and up to the total there are
      total / 50 of them plus one for a last, partial batch. */
  lemma {:induction false} ReportPointsShape(upto: nat, total: nat)
    requires upto <= total
    ensures var points := ReportPoints(upto, total);
      && (forall i, j :: 0 <= i < j < |points| ==> points[i] < points[j])
      && (forall i :: 0 <= i < |points| ==> 1 <= points[i] <= upto)
      && (forall n :: n in points <==> 1 <= n <= upto && ReportsAt(n, total))
      && |points| == upto / ReportEvery + (if upto == total && upto % ReportEvery != 0 then 1 else 0)
  {
    if upto > 0 {
      ReportPointsShape(upto - 1, total);
    }
  }

  /** A finished stream: it opens with `fetching` at 0 of 0, its phases never
      go back, `fetching` counts never decrease, `processing` counts strictly
      increase, a `complete` stream went through a `processing` event at 0,
      and exactly one terminal event closes it. */
  predicate WellFormedStream(events: seq<Event>) {
    && |events| >= 2
    && events[0] == Fetching(0, 0)
    && IsTerminal(events[|events| - 1])
    && (forall i :: 0 <= i < |events| - 1 ==> !IsTerminal(events[i]))
    && (forall i, j :: 0 <= i < j < |events| ==> PhaseRank(events[i]) <= PhaseRank(events[j]))
    && (forall i, j :: 0 <= i < j < |events| && events[i].Fetching? && events[j].Fetching? ==>
          events[i].current <= events[j].current)
    && (forall i, j :: 0 <= i < j < |events| && events[i].Processing? && events[j].Processing? ==>
          events[i].current < events[j].current)
    && (events[|events| - 1].Complete? ==>
          exists k :: 0 < k < |events| - 1 && events[k].Processing? && events[k].current == 0)
  }

  /** `fetching` events whose counts never decrease. */
  predicate FetchingRun(events: seq<Event>) {
    && (forall i :: 0 <= i < |events| ==> events[i].Fetching?)
    && (forall i, j :: 0 <= i < j < |events| ==> events[i].current <= events[j].current)
  }

  /** `processing` events whose counts start above 0 and strictly increase. */
  predicate ProcessingRun(events: seq<Event>) {
    && (forall i :: 0 <= i < |events| ==> events[i].Processing? && events[i].current >= 1)
    && (forall i, j :: 0 <= i < j < |events| ==> events[i].current < events[j].current)
  }

  /** The stream of a run that collected and tallied every patient. */
  lemma CompletedStreamIsWellFormed(fetching: seq<Event>, total: nat, processing: seq<Event>, last: Event)
    requires FetchingRun(fetching) && ProcessingRun(processing) && last.Complete?
    ensures WellFormedStream([Fetching(0, 0)] + fetching + [Processing(0, total, 0)] + processing + [last])
  {
    var events := [Fetching(0, 0)] + fetching + [Processing(0, total, 0)] + processing + [last];
    var f, p := |fetching|, |processing|;
    assert |events| == f + p + 3;
    assert forall i :: 1 <= i <= f ==> events[i] == fetching[i - 1];
    assert events[f + 1] == Processing(0, total, 0);
    assert forall i :: f + 2 <= i < f + p + 2 ==> events[i] == processing[i - f - 2];
    assert events[f + p + 2] == last;
  }

  /** The stream of a run that failed while collecting pages. */
  lemma FailedStreamIsWellFormed(fetching: seq<Event>, message: string)
    requires FetchingRun(fetching)
    ensures WellFormedStream([Fetching(0, 0)] + fetching + [Error(message)])
  {
    var events := [Fetching(0, 0)] + fetching + [Error(message)];
    assert forall i :: 1 <= i <= |fetching| ==> events[i] == fetching[i - 1];
  }
}
