/**
  * The request interception installed on every URL with `page.route`:
  * a verdict per outgoing request, and the ordered capture list that the
  * recorded requests are pushed onto.
  */
module Interception {
  import opened Wrappers
  import opened Text

  /** What the route callback sees of one outgoing request. */
  datatype Request = Request(resourceType: string, url: string, httpMethod: string, headers: map<string, string>)

  /** One entry of the `requests` array returned to the caller. */
  datatype CapturedRequest = CapturedRequest(url: string, httpMethod: string, headers: map<string, string>)

  /** `route.abort()`, push then `route.continue()`, or `route.continue()` alone. */
  datatype Verdict = Abort | RecordAndContinue | Continue

  const BlockedResourceTypes: set<string> := {"image", "stylesheet", "font"}

  const BlockedExtensions: seq<string> :=
    [".jpg", ".jpeg", ".png", ".gif", ".webp", ".svg", ".css", ".woff", ".woff2", ".ttf", ".otf"]

  const TrackerMarkers: seq<string> := ["google-analytics", "googletagmanager"]

  /** First rule: a static asset, by resource type or by the suffix of the whole URL string. */
  ghost predicate IsStaticAsset(resourceType: string, url: string)
  {
    resourceType in BlockedResourceTypes ||
    exists k :: 0 <= k < |BlockedExtensions| && EndsWith(url, BlockedExtensions[k])
  }

  /** Second rule: the URL mentions one of the tracking services. */
  ghost predicate IsTracker(url: string)
  {
    exists k, i :: 0 <= k < |TrackerMarkers| && OccursAt(url, TrackerMarkers[k], i)
  }

  /** Third rule: no filter is configured, or the filter occurs in the URL. */
  ghost predicate MatchesFilter(url: string, filter: Option<string>)
  {
    !Truthy(filter) || exists i :: OccursAt(url, filter.value, i)
  }

  /** The verdict of the route callback; the first matching rule wins. */
  function Classify(resourceType: string, url: string, filter: Option<string>): (v: Verdict)
    ensures v == Abort <==> IsStaticAsset(resourceType, url) || IsTracker(url)
    ensures v == RecordAndContinue <==>
              !IsStaticAsset(resourceType, url) && !IsTracker(url) && MatchesFilter(url, filter)
    ensures v == Continue <==>
              !IsStaticAsset(resourceType, url) && !IsTracker(url) && !MatchesFilter(url, filter)
  {
    if resourceType == "image" || resourceType == "stylesheet" || resourceType == "font"
       || EndsWithAny(url, BlockedExtensions) then
      Abort
    else if Contains(url, "google-analytics") || Contains(url, "googletagmanager") then
      assert TrackerMarkers[0] == "google-analytics" && TrackerMarkers[1] == "googletagmanager";
      Abort
    else
      assert !IsTracker(url) by {
        forall k, i | 0 <= k < |TrackerMarkers| ensures !OccursAt(url, TrackerMarkers[k], i) {
          assert TrackerMarkers[k] == "google-analytics" || TrackerMarkers[k] == "googletagmanager";
        }
      }
      if !Truthy(filter) || (Truthy(filter) && Contains(url, filter.value)) then
        RecordAndContinue
      else
        Continue
  }

  function VerdictFor(req: Request, filter: Option<string>): Verdict
  {
    Classify(req.resourceType, req.url, filter)
  }

  /** The object pushed onto `requests`: the request's url, method and headers. */
  function RecordOf(req: Request): CapturedRequest
  {
    CapturedRequest(req.url, req.httpMethod, req.headers)
  }

  /** The capture list after the callback has seen `reqs`, in arrival order. */
  function Captured(filter: Option<string>, reqs: seq<Request>): seq<CapturedRequest>
  {
    if reqs == [] then []
    else
      var last := reqs[|reqs| - 1];
      Captured(filter, reqs[..|reqs| - 1])
      + (if VerdictFor(last, filter) == RecordAndContinue then [RecordOf(last)] else [])
  }

  /** The positions in `reqs` of the requests the callback records, in increasing order. */
  function RecordedPositions(filter: Option<string>, reqs: seq<Request>): seq<nat>
  {
    if reqs == [] then []
    else
      var n := |reqs| - 1;
      RecordedPositions(filter, reqs[..n])
      + (if VerdictFor(reqs[n], filter) == RecordAndContinue then [n] else [])
  }

  /**
    * The capture list holds exactly the recorded requests, each once, in the
    * order they arrived: entry k is the request at the k-th recorded position,
    * the positions increase, and a position is recorded iff its verdict is
    * RecordAndContinue.
    */
  lemma {:induction false} CapturedInArrivalOrder(filter: Option<string>, reqs: seq<Request>)
    ensures |Captured(filter, reqs)| == |RecordedPositions(filter, reqs)|
    ensures forall k :: 0 <= k < |RecordedPositions(filter, reqs)| ==>
              RecordedPositions(filter, reqs)[k] < |reqs| &&
              Captured(filter, reqs)[k] == RecordOf(reqs[RecordedPositions(filter, reqs)[k]])
    ensures forall k, l :: 0 <= k < l < |RecordedPositions(filter, reqs)| ==>
              RecordedPositions(filter, reqs)[k] < RecordedPositions(filter, reqs)[l]
    ensures forall i :: 0 <= i < |reqs| ==>
              (i in RecordedPositions(filter, reqs) <==> VerdictFor(reqs[i], filter) == RecordAndContinue)
  {
    if reqs != [] {
      var n := |reqs| - 1;
      var front := reqs[..n];
      CapturedInArrivalOrder(filter, front);
      forall i | 0 <= i < n ensures front[i] == reqs[i] { }
    }
  }

  /** Handling requests one after the other: the capture list of `a + b` is that of `a` followed by that of `b`. */
  lemma {:induction false} CapturedAppend(filter: Option<string>, a: seq<Request>, b: seq<Request>)
    ensures Captured(filter, a + b) == Captured(filter, a) + Captured(filter, b)
    decreases |b|
  {
    if b != [] {
      var n := |b| - 1;
      assert (a + b)[..|a + b| - 1] == a + b[..n];
      CapturedAppend(filter, a, b[..n]);
    } else {
      assert a + b == a;
    }
  }

  /**
    * A request aborted as a static asset or a tracker leaves the capture list
    * exactly as if it had never been issued, whatever the filter.
    */
  lemma BlockedRequestLeavesNoTrace(filter: Option<string>, a: seq<Request>, q: Request, b: seq<Request>)
    requires IsStaticAsset(q.resourceType, q.url) || IsTracker(q.url)
    ensures Captured(filter, a + [q] + b) == Captured(filter, a + b)
  {
    CapturedAppend(filter, a + [q], b);
    CapturedAppend(filter, a, b);
    CapturedAppend(filter, a, [q]);
    assert Captured(filter, [q]) == [] by {
      assert [q][..0] == [];
    }
  }

  /**
    * The `requests` array of one session together with the `filter` the
    * route callback closes over. `seen` is every request handed to the
    * callback so far.
    */
  class CaptureLog {
    const filter: Option<string>
    var requests: seq<CapturedRequest>
    ghost var seen: seq<Request>

    ghost predicate Valid()
      reads this
    {
      requests == Captured(filter, seen)
    }

    /** `let requests = []` */
    constructor (filter: Option<string>)
      ensures Valid() && this.filter == filter
      ensures seen == [] && requests == []
    {
      this.filter := filter;
      requests := [];
      seen := [];
    }

    /** The route callback for one request: decide, and push the record when the verdict says so. */
    method OnRequest(req: Request) returns (v: Verdict)
      requires Valid()
      modifies this
      ensures Valid() && seen == old(seen) + [req]
      ensures v == Classify(req.resourceType, req.url, filter)
      ensures requests == old(requests) + (if v == RecordAndContinue then [RecordOf(req)] else [])
    {
      v := Classify(req.resourceType, req.url, filter);
      if v == RecordAndContinue {
        requests := requests + [CapturedRequest(req.url, req.httpMethod, req.headers)];
      }
      seen := seen + [req];
      assert seen[..|seen| - 1] == old(seen);
    }
  }
}
