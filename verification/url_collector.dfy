/** URL collection (`addPurgePostUrl`): on a post event, the URLs that may
    show the post are appended to the in-memory queue. The WordPress lookups
    are inputs: the post's type, status, permalink, category and tag slugs and
    comments feed; the site's home URL builder, base options and feed URLs. */
module UrlCollector {
  import opened Base
  import RequestBuilder

  /** The six site feeds read through `get_bloginfo`, in the order queued. */
  datatype BlogFeeds = BlogFeeds(
    rdf: string, rss: string, rss2: string, atom: string,
    commentsAtom: string, commentsRss2: string)

  /** What WordPress reports about the site. `homeUrl(path)` is `home_url`;
      a base option is None when the option is unset (false). */
  datatype Site = Site(
    homeUrl: string -> string,
    categoryBase: Option<string>,
    tagBase: Option<string>,
    feeds: BlogFeeds)

  /** What WordPress reports about the post; a lookup that returns false is
      None, and missing categories or tags are empty. */
  datatype Post = Post(
    postType: Option<string>,
    status: Option<string>,
    permalink: Option<string>,
    categories: seq<string>,
    tags: seq<string>,
    commentsFeed: string)

  /** The URL queued when a post cannot be purged precisely. */
  const RegexSentinelPath: string := "?" + RequestBuilder.RegexQuery

  /** PHP's `$permalink == true`: a string is truthy unless it is "" or "0". */
  predicate Truthy(o: Option<string>) {
    o.Some? && o.value != "" && o.value != "0"
  }

  /** The post has a permalink and is published or trashed. */
  predicate IsPurgeable(post: Post) {
    Truthy(post.permalink) && (post.status == Some("publish") || post.status == Some("trash"))
  }

  /** `rtrim($s, '/\\')`: drop trailing slashes and backslashes. */
  function TrimTrailingSlashes(s: string): (r: string)
    ensures r <= s
    ensures |r| == 0 || (r[|r| - 1] != '/' && r[|r| - 1] != '\\')
    ensures forall i :: |r| <= i < |s| ==> s[i] == '/' || s[i] == '\\'
  {
    if |s| == 0 then s
    else if s[|s| - 1] == '/' || s[|s| - 1] == '\\' then TrimTrailingSlashes(s[..|s| - 1])
    else s
  }

  /** WordPress's `trailingslashit`: the result ends in exactly one slash. */
  function TrailingSlashIt(s: string): (r: string)
    ensures |r| > 0 && r[|r| - 1] == '/'
    ensures |r| == 1 || (r[|r| - 2] != '/' && r[|r| - 2] != '\\')
    ensures r[..|r| - 1] <= s
    // only trailing slashes and backslashes are dropped
    ensures forall i :: |r| - 1 <= i < |s| ==> s[i] == '/' || s[i] == '\\'
  {
    TrimTrailingSlashes(s) + "/"
  }

  /** `str_replace('..', '', $s)`: remove every non-overlapping "..", scanning
      from the left. */
  function StripDoubleDots(s: string): string
    decreases |s|
  {
    if |s| < 2 then s
    else if s[0] == '.' && s[1] == '.' then StripDoubleDots(s[2..])
    else [s[0]] + StripDoubleDots(s[1..])
  }

  predicate HasDoubleDot(s: string) {
    exists i :: 0 <= i < |s| - 1 && s[i] == '.' && s[i + 1] == '.'
  }

  function CategoryBase(site: Site): string {
    var base := site.categoryBase.GetOr("");
    TrailingSlashIt(if base == "" then "/category/" else base)
  }

  function TagBase(site: Site): string {
    var base := site.tagBase.GetOr("");
    TrailingSlashIt(StripDoubleDots(if base == "" then "/tag/" else base))
  }

  function ArchiveUrls(site: Site, base: string, slugs: seq<string>): seq<string> {
    seq(|slugs|, i requires 0 <= i < |slugs| => site.homeUrl(base + slugs[i] + "/"))
  }

  function FeedUrls(site: Site, post: Post): seq<string> {
    [site.feeds.rdf, site.feeds.rss, site.feeds.rss2, site.feeds.atom,
     site.feeds.commentsAtom, site.feeds.commentsRss2, post.commentsFeed]
  }

  /** `addPurgePostUrl`: the queue after a post event. */
  function AddPurgePostUrl(queue: seq<string>, post: Post, site: Site): (r: seq<string>)
    // the queue only grows at its end
    ensures queue <= r
    // revisions are ignored
    ensures post.postType == Some("revision") ==> r == queue
    // a purgeable post queues its archives, itself, its feeds and the home page
    ensures post.postType != Some("revision") && IsPurgeable(post) ==>
      var n := |queue|;
      var c := |post.categories|;
      var t := |post.tags|;
      && |r| == n + c + t + 9
      && (forall k :: 0 <= k < c ==> r[n + k] == site.homeUrl(CategoryBase(site) + post.categories[k] + "/"))
      && (forall k :: 0 <= k < t ==> r[n + c + k] == site.homeUrl(TagBase(site) + post.tags[k] + "/"))
      && r[n + c + t] == post.permalink.value
      && r[n + c + t + 1..n + c + t + 8] == FeedUrls(site, post)
      && r[n + c + t + 8] == site.homeUrl("")
    // anything else queues one whole-site regex purge
    ensures post.postType != Some("revision") && !IsPurgeable(post) ==>
      r == queue + [site.homeUrl(RegexSentinelPath)]
  {
    if post.postType == Some("revision") then queue
    else if IsPurgeable(post) then
      queue
      + ArchiveUrls(site, CategoryBase(site), post.categories)
      + ArchiveUrls(site, TagBase(site), post.tags)
      + [post.permalink.value]
      + FeedUrls(site, post)
      + [site.homeUrl("")]
    else queue + [site.homeUrl(RegexSentinelPath)]
  }

  /** Applying `trailingslashit` to its own result changes nothing. */
  lemma TrailingSlashItIdempotent(s: string)
    ensures TrailingSlashIt(TrailingSlashIt(s)) == TrailingSlashIt(s)
  {
  }

  /** The tag base can never climb out of the site with "..": no two adjacent
      dots survive the replacement. */
  lemma {:induction false} StripDoubleDotsLeavesNone(s: string)
    ensures !HasDoubleDot(StripDoubleDots(s))
    decreases |s|
  {
    if |s| < 2 {
    } else if s[0] == '.' && s[1] == '.' {
      StripDoubleDotsLeavesNone(s[2..]);
    } else {
      StripDoubleDotsLeavesNone(s[1..]);
      var rest := StripDoubleDots(s[1..]);
      var r := [s[0]] + rest;
      forall i | 0 <= i < |r| - 1
        ensures !(r[i] == '.' && r[i + 1] == '.')
      {
        if i == 0 && s[0] == '.' {
          assert rest[0] == s[1];
        }
      }
    }
  }
}
