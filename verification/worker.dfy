/** The plugin object's life in one PHP request: construction reloads and
    de-duplicates the stored queue, `init` frees the lock when there is
    nothing to do, the AJAX trigger runs the worker under the object-cache
    lock, and the worker purges every queued URL in array order and drops it
    whatever the outcome. Side effects on WordPress are recorded as events. */
module Worker {
  import opened Base
  import opened RequestBuilder
  import opened Executor
  import opened PurgeQueue
  import opened UrlCollector

  /** The state the plugin reads and writes: the in-memory queue
      (`purgeUrls`), the object-cache entry `aws_purge_lock` (None on a
      cache miss), the global node list `$aws_varnish_ips`, and the option
      `aws_purge_list` (None when it does not hold an array). */
  datatype Plugin = Plugin(
    purgeUrls: seq<string>,
    lock: Option<int>,
    varnishIps: seq<string>,
    storedList: Option<seq<string>>)

  /** What the plugin does to the world, in order. */
  datatype Event =
    | LockSet(value: int)
    | Purged(url: string, requests: seq<Request>, verdicts: seq<Verdict>)
    | ListSaved(list: seq<string>)
    | Responded(processed: nat)

  /** The state after an operation and the events it produced. */
  datatype Run = Run(state: Plugin, trace: seq<Event>)

  /** `init`'s outcome: the state, and whether the AJAX trigger script was
      queued for the admin page. */
  datatype Booted = Booted(state: Plugin, scriptQueued: bool)

  /** PHP's `!$lock`: a cache miss (false) and 0 are both free. */
  predicate LockFree(lock: Option<int>) {
    lock.None? || lock.value == 0
  }

  /** The constructor: the queue is the stored list with duplicates removed,
      or empty when the option is not an array. */
  function Construct(storedList: Option<seq<string>>, lock: Option<int>, nodes: seq<string>): (s: Plugin)
    ensures NoDuplicates(s.purgeUrls)
    ensures forall u :: u in s.purgeUrls <==> storedList.Some? && u in storedList.value
    // `array_unique` keeps the first occurrence of each URL, in stored order
    ensures storedList.Some? ==> s.purgeUrls == FirstOccurrences(storedList.value)
    ensures storedList.None? ==> s.purgeUrls == []
    ensures s.lock == lock && s.varnishIps == nodes && s.storedList == storedList
  {
    if storedList.Some? then
      FirstOccurrencesSound(storedList.value);
      Plugin(FirstOccurrences(storedList.value), lock, nodes, storedList)
    else
      Plugin([], lock, nodes, storedList)
  }

  /** `init`: with work queued, the trigger script is scheduled; with none,
      the lock is reset to 0. Nothing else changes. */
  function Init(s: Plugin): (b: Booted)
    ensures b.scriptQueued <==> |s.purgeUrls| > 0
    ensures |s.purgeUrls| == 0 ==> b.state.lock == Some(0) && LockFree(b.state.lock)
    ensures |s.purgeUrls| > 0 ==> b.state == s
    ensures b.state.(lock := s.lock) == s
  {
    if |s.purgeUrls| > 0 then Booted(s, true) else Booted(s.(lock := Some(0)), false)
  }

  /** `setPurgeList` (on shutdown): a non-empty queue is stored; an empty one
      leaves the option as it was. */
  function SetPurgeList(s: Plugin): (r: Plugin)
    ensures |s.purgeUrls| > 0 ==> r.storedList == Some(s.purgeUrls)
    ensures |s.purgeUrls| == 0 ==> r == s
    ensures r.(storedList := s.storedList) == s
  {
    if |s.purgeUrls| > 0 then s.(storedList := Some(s.purgeUrls)) else s
  }

  /** The classification of each request of one URL by the network oracle. */
  function Verdicts(requests: seq<Request>, net: Request -> Transfer): (v: seq<Verdict>)
    ensures |v| == |requests|
    ensures forall i :: 0 <= i < |v| ==>
      (v[i].result <==> net(requests[i]).curlCode == CurleOk || net(requests[i]).httpCode == HttpNotFound)
  {
    seq(|requests|, i requires 0 <= i < |requests| => Classify(net(requests[i])))
  }

  /** `purgeUrl` for one queued URL: the event it produces and the node list
      it leaves in the global (the fallback host is written back). */
  function PurgeUrl(url: string, nodes: seq<string>, parse: string -> ParsedUrl, net: Request -> Transfer): (r: (Event, seq<string>))
    ensures r.0.Purged? && r.0.url == url
    ensures r.0.requests == BuildRequests(parse(url), nodes)
    ensures r.0.verdicts == Verdicts(r.0.requests, net)
    // the global node list is never left empty, and a configured list is kept
    ensures |r.1| > 0 && (|nodes| > 0 ==> r.1 == nodes)
    ensures |nodes| == 0 ==> r.1 == [Text(parse(url).host)]
  {
    var p := parse(url);
    var requests := BuildRequests(p, nodes);
    (Purged(url, requests, Verdicts(requests, net)), Balancers(nodes, p))
  }

  /** `purgeUrl` run through the executor: the requests are built, handed to
      `processRequest` with the transfer outcome the network gives each, and
      the verdicts it records are the ones the functional model reports. */
  method ExecutePurgeUrl(url: string, nodes: seq<string>, parse: string -> ParsedUrl, net: Request -> Transfer)
    returns (e: Event, nodes': seq<string>)
    ensures (e, nodes') == PurgeUrl(url, nodes, parse, net)
  {
    var p := parse(url);
    var requests := BuildRequests(p, nodes);
    var outcomes := seq(|requests|, i requires 0 <= i < |requests| => net(requests[i]));
    var results, _, _ := ProcessRequest(requests, outcomes);
    var verdicts := seq(|results|, i requires 0 <= i < |results| => results[i].verdict.value);
    assert verdicts == Verdicts(requests, net);
    e := Purged(url, requests, verdicts);
    nodes' := Balancers(nodes, p);
  }

  /** The `foreach` of `runPurgeWorker`: purge each URL in array order,
      threading the global node list through the calls. */
  function PurgeAll(urls: seq<string>, nodes: seq<string>, parse: string -> ParsedUrl, net: Request -> Transfer): (r: (seq<Event>, seq<string>))
    ensures |r.0| == |urls|
    ensures forall k :: 0 <= k < |urls| ==> r.0[k].Purged? && r.0[k].url == urls[k]
    decreases |urls|
  {
    if |urls| == 0 then ([], nodes)
    else
      var (e, nodes') := PurgeUrl(urls[0], nodes, parse, net);
      var (rest, last) := PurgeAll(urls[1..], nodes', parse, net);
      ([e] + rest, last)
  }

  /** The node list every purge of a run goes to: the configured list, or,
      when none is configured, the host of the first URL purged. */
  function RunNodes(nodes: seq<string>, urls: seq<string>, parse: string -> ParsedUrl): seq<string> {
    if |urls| == 0 then nodes else Balancers(nodes, parse(urls[0]))
  }

  /** `runPurgeWorker`: every queued URL is purged once, in order, and then
      dropped; the emptied list is stored. The verdicts are not consulted. */
  function RunPurgeWorker(s: Plugin, parse: string -> ParsedUrl, net: Request -> Transfer): (r: Run)
    ensures r.state.purgeUrls == [] && r.state.storedList == Some([])
    ensures r.state.lock == s.lock
    ensures |r.trace| == |s.purgeUrls| + 1 && r.trace[|s.purgeUrls|] == ListSaved([])
    ensures forall k :: 0 <= k < |s.purgeUrls| ==> r.trace[k].Purged? && r.trace[k].url == s.purgeUrls[k]
  {
    var (events, nodes) := PurgeAll(s.purgeUrls, s.varnishIps, parse, net);
    Run(s.(purgeUrls := [], varnishIps := nodes, storedList := Some([])), events + [ListSaved([])])
  }

  /** `awsPurgeAjax`: with the lock free, set it to 1, run the worker, set it
      to 0; with the lock held, do nothing. Either way respond with the queue
      length read before anything ran. */
  function AwsPurgeAjax(s: Plugin, parse: string -> ParsedUrl, net: Request -> Transfer): (r: Run)
    ensures |r.trace| > 0 && r.trace[|r.trace| - 1] == Responded(|s.purgeUrls|)
    ensures !LockFree(s.lock) ==> r.state == s && r.trace == [Responded(|s.purgeUrls|)]
    ensures LockFree(s.lock) ==>
      && r.state.purgeUrls == [] && r.state.lock == Some(0)
      && |r.trace| == |s.purgeUrls| + 4
      && r.trace[0] == LockSet(1) && r.trace[|r.trace| - 2] == LockSet(0)
      && r.trace[|s.purgeUrls| + 1] == ListSaved([]) && r.state.storedList == Some([])
      && forall k :: 0 <= k < |s.purgeUrls| ==> r.trace[k + 1].Purged? && r.trace[k + 1].url == s.purgeUrls[k]
  {
    var count := |s.purgeUrls|;
    if LockFree(s.lock) then
      var run := RunPurgeWorker(s.(lock := Some(1)), parse, net);
      Run(run.state.(lock := Some(0)), [LockSet(1)] + run.trace + [LockSet(0), Responded(count)])
    else
      Run(s, [Responded(count)])
  }

  /** The lock value the object cache holds after replaying `events`. */
  function LockAfter(lock: Option<int>, events: seq<Event>): Option<int>
    decreases |events|
  {
    if |events| == 0 then lock
    else LockAfter(if events[0].LockSet? then Some(events[0].value) else lock, events[1..])
  }

  /** Every purge of a run goes to the same nodes, `RunNodes`: the global
      fallback set by the first URL sticks for the rest of the run, and the
      global holds that list afterwards. */
  lemma {:induction false} PurgeAllNodes(urls: seq<string>, nodes: seq<string>, parse: string -> ParsedUrl, net: Request -> Transfer)
    ensures forall k :: 0 <= k < |urls| ==>
      PurgeAll(urls, nodes, parse, net).0[k].requests == BuildRequests(parse(urls[k]), RunNodes(nodes, urls, parse))
    ensures PurgeAll(urls, nodes, parse, net).1 == RunNodes(nodes, urls, parse)
    decreases |urls|
  {
    if |urls| > 0 {
      var p := parse(urls[0]);
      var nodes' := Balancers(nodes, p);
      PurgeAllNodes(urls[1..], nodes', parse, net);
      assert RunNodes(nodes', urls[1..], parse) == nodes';
      assert BuildRequests(p, nodes) == BuildRequests(p, nodes');
      forall k | 1 <= k < |urls|
        ensures PurgeAll(urls, nodes, parse, net).0[k] == PurgeAll(urls[1..], nodes', parse, net).0[k - 1]
      {
      }
    }
  }

  /** The worker's outcome does not depend on what the nodes answered: every
      URL is dropped, failed or not. */
  lemma OutcomesIgnored(s: Plugin, parse: string -> ParsedUrl, net1: Request -> Transfer, net2: Request -> Transfer)
    ensures RunPurgeWorker(s, parse, net1).state == RunPurgeWorker(s, parse, net2).state
    ensures AwsPurgeAjax(s, parse, net1).state == AwsPurgeAjax(s, parse, net2).state
  {
    PurgeAllNodes(s.purgeUrls, s.varnishIps, parse, net1);
    PurgeAllNodes(s.purgeUrls, s.varnishIps, parse, net2);
    var t := s.(lock := Some(1));
    PurgeAllNodes(t.purgeUrls, t.varnishIps, parse, net1);
    PurgeAllNodes(t.purgeUrls, t.varnishIps, parse, net2);
  }

  lemma {:induction false} LockAfterAppend(lock: Option<int>, a: seq<Event>, b: seq<Event>)
    ensures LockAfter(lock, a + b) == LockAfter(LockAfter(lock, a), b)
    decreases |a|
  {
    if |a| == 0 {
      assert a + b == b;
    } else {
      assert (a + b)[0] == a[0];
      assert (a + b)[1..] == a[1..] + b;
      LockAfterAppend(if a[0].LockSet? then Some(a[0].value) else lock, a[1..], b);
    }
  }

  lemma {:induction false} LockAfterNoLockEvents(lock: Option<int>, events: seq<Event>)
    requires forall k :: 0 <= k < |events| ==> !events[k].LockSet?
    ensures LockAfter(lock, events) == lock
    decreases |events|
  {
    if |events| > 0 {
      LockAfterNoLockEvents(lock, events[1..]);
    }
  }

  /** Within one AJAX call, the lock is held at every purge: replaying the
      call's trace gives lock 1 at each purge event, and replaying the whole
      trace ends with the lock the state reports. */
  lemma LockHeldWhilePurging(s: Plugin, parse: string -> ParsedUrl, net: Request -> Transfer)
    ensures var r := AwsPurgeAjax(s, parse, net);
      && (forall k :: 0 <= k < |r.trace| && r.trace[k].Purged? ==> LockAfter(s.lock, r.trace[..k]) == Some(1))
      && LockAfter(s.lock, r.trace) == r.state.lock
  {
    var r := AwsPurgeAjax(s, parse, net);
    if LockFree(s.lock) {
      var run := RunPurgeWorker(s.(lock := Some(1)), parse, net);
      var n := |s.purgeUrls|;
      assert forall k :: 0 <= k < |run.trace| ==> !run.trace[k].LockSet?;
      forall k | 0 <= k < |r.trace| && r.trace[k].Purged?
        ensures LockAfter(s.lock, r.trace[..k]) == Some(1)
      {
        assert 1 <= k <= n;
        assert r.trace[..k] == [LockSet(1)] + run.trace[..k - 1];
        LockAfterAppend(s.lock, [LockSet(1)], run.trace[..k - 1]);
        LockAfterNoLockEvents(Some(1), run.trace[..k - 1]);
      }
      assert r.trace == ([LockSet(1)] + run.trace) + [LockSet(0), Responded(n)];
      LockAfterAppend(s.lock, [LockSet(1)], run.trace);
      LockAfterNoLockEvents(Some(1), run.trace);
      LockAfterAppend(s.lock, [LockSet(1)] + run.trace, [LockSet(0), Responded(n)]);
      assert LockAfter(Some(1), [LockSet(0), Responded(n)]) == LockAfter(Some(0), [Responded(n)]);
      assert LockAfter(Some(0), [Responded(n)]) == LockAfter(Some(0), []);
    }
  }

  /** A second trigger right after a run finds the lock free and the queue
      empty: it purges nothing and reports 0. */
  lemma SecondTriggerPurgesNothing(s: Plugin, parse: string -> ParsedUrl, net: Request -> Transfer)
    requires LockFree(s.lock)
    ensures var r2 := AwsPurgeAjax(AwsPurgeAjax(s, parse, net).state, parse, net);
      && r2.trace == [LockSet(1), ListSaved([]), LockSet(0), Responded(0)]
      && r2.state.purgeUrls == [] && r2.state.lock == Some(0)
  {
  }

  /** Storing the queue and reloading it on the next request gives the queue
      back with later duplicates dropped, and exactly the queue when it had
      none. */
  lemma PersistThenReload(s: Plugin, lock: Option<int>, nodes: seq<string>)
    requires |s.purgeUrls| > 0
    ensures Construct(SetPurgeList(s).storedList, lock, nodes).purgeUrls == FirstOccurrences(s.purgeUrls)
    ensures NoDuplicates(s.purgeUrls) ==> Construct(SetPurgeList(s).storedList, lock, nodes).purgeUrls == s.purgeUrls
  {
    if NoDuplicates(s.purgeUrls) {
      FirstOccurrencesOfDistinct(s.purgeUrls);
    }
  }

  /** End to end: a post that cannot be purged precisely queues the regex
      sentinel, and the next worker run sends a regex purge for it to every
      node. */
  lemma UnpurgeablePostPurgesWholeSite(s: Plugin, post: Post, site: Site, parse: string -> ParsedUrl, net: Request -> Transfer)
    requires post.postType != Some("revision") && !IsPurgeable(post)
    requires parse(site.homeUrl(RegexSentinelPath)).query == Some(RegexQuery)
    ensures var queued := s.(purgeUrls := AddPurgePostUrl(s.purgeUrls, post, site));
      var e := RunPurgeWorker(queued, parse, net).trace[|s.purgeUrls|];
      && e.Purged? && e.url == site.homeUrl(RegexSentinelPath)
      && |e.requests| > 0
      && forall i :: 0 <= i < |e.requests| ==> RequestedMethod(e.requests[i]) == Some(Regex)
  {
    var queued := s.(purgeUrls := AddPurgePostUrl(s.purgeUrls, post, site));
    var n := |s.purgeUrls|;
    var nodes := RunNodes(s.varnishIps, queued.purgeUrls, parse);
    PurgeAllNodes(queued.purgeUrls, s.varnishIps, parse, net);
    var e := RunPurgeWorker(queued, parse, net).trace[n];
    assert e.requests == BuildRequests(parse(site.homeUrl(RegexSentinelPath)), nodes);
    forall i | 0 <= i < |e.requests|
      ensures RequestedMethod(e.requests[i]) == Some(Regex)
    {
      HeadersDecode(parse(site.homeUrl(RegexSentinelPath)), nodes, i);
    }
  }
}
