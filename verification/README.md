# AWS Varnish Purge — a Dafny model

This project models the core of the WordPress plugin "AWS Varnish Purge"
(`awspurge.php`). When a post changes, the plugin collects the URLs that may
show it and keeps them in a queue. An AJAX trigger later runs a worker under
an object-cache lock. The worker sends an HTTP `PURGE` request for every queued
URL to every configured Varnish node, then empties the queue.

The model has one Dafny module per component:

- `Base` (`base.dfy`): `Option`, the PHP "set or null" value, plus sequence helpers.
- `RequestBuilder` (`request_builder.dfy`): `purgeUrl`'s request building.
  - It takes one parsed URL and the node list.
  - It returns one request per node. The node goes in the target URL (`uribal`); the URL's own host goes in the `Host` header.
  - The query `vhp=regex` switches on regex mode: the path gets a `.*` suffix and the request sends `X-Purge-Method: regex`.
- `Executor` (`executor.dfy`): `processRequest`.
  - Requests are shifted off the front in waves of at most `AWS_PURGE_PARALLEL_REQUESTS` (6).
  - After each wave, every request whose `curl` handle is still attached is classified and then detached.
  - A request succeeds if and only if cURL reports `CURLE_OK` or the HTTP status is 404.
- `PurgeQueue` (`purge_queue.dfy`): the constructor's `array_unique` on the stored list, which keeps the first occurrence of each URL.
- `UrlCollector` (`url_collector.dfy`): `addPurgePostUrl`, including the category and tag base handling.
- `Worker` (`worker.dfy`): the plugin's state, i.e. the queue, the lock, the global node list and the stored option.
  - It models the constructor, `init`, `setPurgeList`, `runPurgeWorker` and `awsPurgeAjax`.
  - Side effects are recorded as an event trace: lock writes, purges, option writes and the JSON response.

Inputs that come from outside the plugin are parameters:

- `parse_url` is a function `string -> ParsedUrl`. A URL that `parse_url` rejects reads as the all-`None` record, as PHP's `null` would.
- The network is an oracle. `ProcessRequest` takes one `Transfer` (cURL code, HTTP status) per request. The worker takes a function `Request -> Transfer`.
- WordPress lookups are records: `Post` holds the type, status, permalink, slugs and comments feed. `Site` holds `home_url`, the base options and the six blog feeds.

Behaviour of the code worth noting:

- The queue is purged first-in first-out, in array order.
- Every URL is dropped after its purge, whatever the outcome: `purgeUrl` discards `processRequest`'s result. Nothing is kept for a retry.
- There is no run time budget and no re-trigger.
- The lock is a plain cache value: set to 1, then replaced by 0.
- `AWS_PURGE_MAX_PATHS`, `AWS_PURGE_MAX_REQUESTS` and `AWS_PURGE_QUEUE_LOCK_TIMEOUT` are defined but never used by the code.
- The node list is the global `$aws_varnish_ips`. When it is empty, `purgeUrl` writes the current URL's host into it, and that value then stays.
  - So within one run, every URL goes to the first URL's host, not to its own. `Worker.PurgeAllNodes` states this.
  - The builder itself receives the node list as a parameter.

## Model

| member | source | states |
|---|---|---|
| RequestBuilder.BuildRequests | awspurge.php:185-227 | One request per configured node, in node order, with that node as balancer; with no node, exactly one request whose balancer is the URL's host. Each request is a PURGE carrying the URL's scheme with headers exactly Host: url-host, Accept-Encoding: gzip, X-Purge-Method: m. `uribal` is scheme://node + path + suffix, and `uri` uses the URL's own host. Query exactly `vhp=regex` gives suffix `.*` and method `regex`; any other or missing query gives no suffix and `default`. A missing path is "". |
| RequestBuilder.HeadersDecode | awspurge.php:218-224 | A node reading any built request's headers finds the URL's host in `Host`, and finds `regex` in `X-Purge-Method` exactly when the query is the sentinel (`default` otherwise). |
| RequestBuilder.SamePurgeOnEveryNode | awspurge.php:210-227 | The requests for one URL are equal except for balancer and target URL: same vhost, path, request URI and headers on every node. |
| RequestBuilder.TargetKeepsPath | awspurge.php:218-219 | The target URL starts with scheme://node, the request URI starts with scheme://host, and the rest of both (path plus suffix) is identical. |
| Executor.Classify | awspurge.php:303-312 | `result` is true if and only if the cURL code is CURLE_OK or the HTTP code is 404, so a 404 turns any transport failure into a success. Both codes are recorded as reported. |
| Executor.WavesPartition | awspurge.php:248-274 | The reference split into waves gives the input back when concatenated; each wave has between 1 and k requests; every wave but the last is full. |
| Executor.FirstWave | awspurge.php:252-274 | The requests shifted in one wave are the first min(k, remaining) requests, and the waves of the rest follow. |
| Executor.TakeWave | awspurge.php:252-274 | The inner loop shifts the first min(6, remaining) requests off the front, leaves the rest pending, and appends the shifted requests to `results` in order, each with a handle attached and no verdict. Earlier results are unchanged. |
| Executor.ClassifyAttached | awspurge.php:297-330 | Each result with a handle attached is classified by its own outcome and detached; its classification count rises by one. Results without a handle are left exactly as they were. |
| Executor.ProcessRequest | awspurge.php:234-333 | The loop terminates. It returns every request in input order (same length), each with the verdict of its own transfer. Success holds if and only if CURLE_OK or 404. The ghost record of the waves is the reference split into groups of at most 6 that concatenate back to the input. Every request is classified exactly once. |
| PurgeQueue.ArrayUnique | awspurge.php:52-55 | The scan with a seen-set equals the reference first-occurrence definition. The result has no duplicates and holds exactly the stored URLs. |
| PurgeQueue.FirstOccurrencesSound | awspurge.php:53-55 | The de-duplicated list holds each URL once and exactly the URLs of the input. |
| PurgeQueue.FirstOccurrencesOfDistinct | awspurge.php:53-55 | A stored list without duplicates is loaded unchanged. |
| PurgeQueue.FirstOccurrencesIdempotent | awspurge.php:53-55 | Reloading an already de-duplicated list changes nothing. |
| PurgeQueue.FirstOccurrencesAppend | awspurge.php:53-55 | Order is kept: the de-duplication of a list is a prefix of the de-duplication of that list with more URLs appended. |
| UrlCollector.TrimTrailingSlashes | awspurge.php:155 | `rtrim` returns a prefix of its input that does not end in '/' or '\\'; everything removed was a slash or backslash. |
| UrlCollector.AddPurgePostUrl | awspurge.php:136-183 | The queue only grows at its end, and a revision adds nothing. A post with a truthy permalink and status publish or trash appends, in order: its category archive URLs, its tag archive URLs, the permalink, the 7 feed URLs, then the home URL. Any other post appends exactly `home_url('?vhp=regex')`. |
| UrlCollector.TrailingSlashIt | awspurge.php:155 | A normalised base ends in exactly one '/'. What precedes it is a prefix of the input, and every input character dropped was a trailing '/' or '\\'. |
| UrlCollector.TrailingSlashItIdempotent | awspurge.php:155 | Normalising an already normalised base changes nothing. |
| UrlCollector.StripDoubleDotsLeavesNone | awspurge.php:166 | After removing every "..", no two adjacent dots remain in the tag base. |
| Worker.Construct | awspurge.php:49-57 | The loaded queue has no duplicates and holds exactly the stored URLs, each at its first occurrence in stored order (the reference keep-first de-duplication, so the next run purges them in that order); it is empty when the stored option is not an array. |
| Worker.Init | awspurge.php:60-73 | The trigger script is queued if and only if the queue is non-empty; with an empty queue the lock is reset to 0. Nothing else changes. |
| Worker.SetPurgeList | awspurge.php:87-92 | A non-empty queue is written to the option; an empty queue leaves the state, including the stored option, unchanged. |
| Worker.PurgeUrl | awspurge.php:185-231 | One purge event for the URL. Its requests are the builder's requests for the parsed URL and the current node list, and each verdict is success if and only if that request's transfer is CURLE_OK or 404. The node list it leaves is never empty: a configured list is kept, and an empty one becomes the URL's host. |
| Worker.Verdicts | awspurge.php:297-312 | One verdict per request of a URL, in request order; each is success if and only if that request's transfer reports CURLE_OK or HTTP 404. |
| Worker.ExecutePurgeUrl | awspurge.php:185-231 | Building the requests and running them through `ProcessRequest` yields exactly the event and node list of `PurgeUrl`. The executor's verdicts are the ones the worker records. |
| Worker.PurgeAll | awspurge.php:125-128 | Exactly one purge event per queued URL, in array order. |
| Worker.RunPurgeWorker | awspurge.php:123-130 | Afterwards the queue is empty and the stored list is empty, whatever the outcomes. The lock is untouched. The trace is one purge per URL in array order, then the option write. |
| Worker.AwsPurgeAjax | awspurge.php:106-120 | The response reports the queue length before the call. With the lock held, the state is unchanged and the only event is the response. With the lock free, the trace is: lock set to 1, one purge per URL in order, the option write, lock set to 0, response. The queue ends empty and the lock ends at 0. |
| Worker.PurgeAllNodes | awspurge.php:198-201 | Every URL of a run is sent to the configured nodes or, when none are configured, to the first URL's host; the global holds that list afterwards. |
| Worker.OutcomesIgnored | awspurge.php:229-231 | Two runs that differ only in what the nodes answered leave the same state, for the worker and for the AJAX call. |
| Worker.LockHeldWhilePurging | awspurge.php:111-117 | Replaying the trace, the cache holds lock 1 at every purge. The lock after the whole trace is the lock the final state reports. |
| Worker.SecondTriggerPurgesNothing | awspurge.php:111-119 | A second trigger right after a run finds the lock free and the queue empty. It purges nothing, reports 0, and leaves the lock at 0. |
| Worker.PersistThenReload | awspurge.php:87-92 | A non-empty queue written at shutdown and loaded by the next request's constructor comes back with later duplicates removed, and exactly as it was when it had no duplicates. |
| Worker.UnpurgeablePostPurgesWholeSite | awspurge.php:180-182 | A post that is not a revision and cannot be purged precisely queues the regex sentinel. If the sentinel URL parses with query `vhp=regex`, the next run sends it to at least one node, and every node reads `X-Purge-Method: regex`. |

## Left out

- The cURL transport is an oracle input: `curl_init`, the options, `curl_multi_exec`/`select` and `curl_exec`. The request timeout `AWS_PURGE_REQUEST_TIMEOUT` is therefore not carried on the request.
- `curl_multi_info_read` returns completions in arbitrary order. The model gives each request its own outcome, as a concurrency-free reading.
- The multi handle is reused across calls, and single-request mode calls `curl_exec` directly. These change how requests are sent, not which outcomes are recorded.
- WordPress hooks (`add_action`, `do_action('after_purge_url')`) and script enqueueing are left out. `wp_send_json` appears only as the `Responded` event.
- The lock's 5-second cache expiry is left out, and so is the case where `wp_cache_replace` finds the entry already expired.
- Runs that PHP stops before they finish are left out: `max_execution_time` being hit, or a fatal error inside a cURL call. `runPurgeWorker` and `awsPurgeAjax` have no `try`/`finally`. In such a run the lock is never replaced by 0; it stays until its 5-second expiry. The shutdown hook `setPurgeList` then stores the URLs not yet unset, so they survive to the next trigger. The model's promises that the queue ends empty and the lock ends at 0 (`Worker.RunPurgeWorker`, `Worker.AwsPurgeAjax`) hold only for a run that finishes. `ignore_user_abort(true)` is assumed to keep the run alive when the browser disconnects.
- Concurrent PHP requests are left out. One example: a request that loaded the queue before a run and saves it again at shutdown.
- `home_url` and `get_bloginfo` are site inputs; only their results are used.
- `get_the_tags` can return a `WP_Error` object; the model treats missing tags as an empty list.
- Debug-information collection (`error_debug`) is left out: it is always set to "", and the code that would fill it is commented out.
- `parse_url` itself is a function parameter.
- `awspurge.js` only fires the AJAX call and shows a message.

