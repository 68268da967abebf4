/** The bulk download's crawl: a breadth-first search in levels over a queue
    that may hold a URL more than once.  The links of each page are arbitrary. */
module Crawler {
  import opened Text

  datatype Args = Args(baseUrl: string, fileTypes: seq<string>, maxDepth: int)

  /** The resolved links of each page, in order; none when the download fails. */
  type Web = string -> seq<string>

  // ----- Single URLs -----

  datatype Kind = Artifact | Signature | Page

  /** The first file type that matches decides. */
  function Classify(fileTypes: seq<string>, url: string): Kind {
    if fileTypes == [] then Page
    else if EndsWith(url, fileTypes[0]) then Artifact
    else if EndsWith(url, fileTypes[0] + ".asc") then Signature
    else Classify(fileTypes[1..], url)
  }

  const PERMITTED_TYPES: set<string> := {".tar.gz", ".tgz", ".zip", ".jar"}

  /** Links that only sort a directory listing. */
  predicate Sorting(url: string) {
    || Contains(url, "?C=N;O=") || Contains(url, "?C=M;O=")
    || Contains(url, "?C=S;O=") || Contains(url, "?C=D;O=")
  }

  predicate UrlExcluded(seen: set<string>, url: string, args: Args) {
    !(args.baseUrl <= url) || url in seen || Sorting(url)
  }

  predicate IsPage(args: Args, url: string) {
    Classify(args.fileTypes, url).Page?
  }

  /** The crawl can go from page p to u: u is a link of p, extends the URL of p,
      and is not a sorting link. */
  predicate Linking(args: Args, web: Web, p: string, u: string) {
    IsPage(args, p) && u in web(p) && p <= u && !Sorting(u)
  }

  // ----- What a crawl should find -----

  predicate Hop(args: Args, web: Web, path: seq<string>, i: nat) {
    i + 1 < |path| && Linking(args, web, path[i], path[i + 1])
  }

  /** A route from the base to a URL.  Whether the URLs on it are in scope is not asked. */
  ghost predicate Route(args: Args, web: Web, path: seq<string>, url: string) {
    && path != [] && path[0] == args.baseUrl && !Sorting(path[0])
    && (forall i :: 0 <= i < |path| - 1 ==> Hop(args, web, path, i))
    && path[|path| - 1] == url
  }

  /** The URL is reached from the base by fewer than n links. */
  ghost predicate Within(args: Args, web: Web, n: nat, url: string) {
    exists path :: |path| <= n && Route(args, web, path, url)
  }

  lemma Longer(args: Args, web: Web, path: seq<string>, p: string, u: string)
    requires Route(args, web, path, p) && Linking(args, web, p, u)
    ensures Route(args, web, path + [u], u)
  {
    var more := path + [u];
    forall i | 0 <= i < |more| - 1 ensures Hop(args, web, more, i) {
      assert i < |path| - 1 ==> Hop(args, web, path, i);
    }
  }

  lemma Shorter(args: Args, web: Web, path: seq<string>, u: string)
    requires Route(args, web, path, u) && |path| > 1
    ensures Route(args, web, path[..|path| - 1], path[|path| - 2])
    ensures Linking(args, web, path[|path| - 2], u)
  {
    var less := path[..|path| - 1];
    forall i | 0 <= i < |less| - 1 ensures Hop(args, web, less, i) {
      assert Hop(args, web, path, i);
    }
    assert Hop(args, web, path, |path| - 2);
  }

  lemma WithinBase(args: Args, web: Web)
    requires !Sorting(args.baseUrl)
    ensures Within(args, web, 1, args.baseUrl)
  {
    assert Route(args, web, [args.baseUrl], args.baseUrl);
  }

  lemma WithinNext(args: Args, web: Web, n: nat, p: string, u: string)
    requires Within(args, web, n, p) && Linking(args, web, p, u)
    ensures Within(args, web, n + 1, u)
  {
    var path :| |path| <= n && Route(args, web, path, p);
    Longer(args, web, path, p, u);
  }

  lemma WithinMore(args: Args, web: Web, n: nat, m: nat, url: string)
    requires Within(args, web, n, url) && n <= m
    ensures Within(args, web, m, url)
  {
    var path :| |path| <= n && Route(args, web, path, url);
  }

  lemma LastHop(args: Args, web: Web, n: nat, u: string) returns (p: string)
    requires Within(args, web, n, u)
    ensures (u == args.baseUrl && !Sorting(u)) || (n > 1 && Within(args, web, n - 1, p) && Linking(args, web, p, u))
  {
    var path :| |path| <= n && Route(args, web, path, u);
    if |path| > 1 {
      p := path[|path| - 2];
      Shorter(args, web, path, u);
    } else {
      p := u;
    }
  }

  /** Nothing new is reached by one link more than n. */
  ghost predicate Settled(args: Args, web: Web, n: nat) {
    forall u :: Within(args, web, n + 1, u) ==> Within(args, web, n, u)
  }

  /** Once a level adds nothing, no later level does. */
  lemma {:induction false} StaysSettled(args: Args, web: Web, n: nat, m: nat, url: string)
    requires Settled(args, web, n) && n <= m && Within(args, web, m, url)
    ensures Within(args, web, n, url)
    decreases m
  {
    if n < m {
      var p := LastHop(args, web, m, url);
      if m > 1 && Within(args, web, m - 1, p) && Linking(args, web, p, url) {
        StaysSettled(args, web, n, m - 1, p);
        WithinNext(args, web, n, p, url);
      } else {
        WithinBase(args, web);
        WithinMore(args, web, 1, n + 1, url);
      }
    }
  }

  lemma PrefixTrans(a: string, b: string, c: string)
    requires a <= b && b <= c
    ensures a <= c
  {
    assert a == b[..|a|] == c[..|a|];
  }

  lemma LongerPrefix(a: string, b: string)
    requires a <= b && a != b
    ensures |a| < |b|
  {
  }

  /** Everything within reach starts with the base URL, so the scope test never
      turns a URL away; and a URL that takes n links is at least n characters longer. */
  lemma {:induction false} ReachExtendsBase(args: Args, web: Web, n: nat, url: string)
    requires Within(args, web, n, url)
    ensures n > 0 && args.baseUrl <= url
    ensures !Within(args, web, n - 1, url) ==> |args.baseUrl| + n - 1 <= |url|
  {
    var p := LastHop(args, web, n, url);
    if n > 1 && Within(args, web, n - 1, p) && Linking(args, web, p, url) {
      ReachExtendsBase(args, web, n - 1, p);
      PrefixTrans(args.baseUrl, p, url);
      if !Within(args, web, n - 1, url) {
        if Within(args, web, n - 2, p) {
          WithinNext(args, web, n - 2, p, url);
        }
        LongerPrefix(p, url);
      }
    } else {
      WithinBase(args, web);
      if n > 1 {
        WithinMore(args, web, 1, n - 1, url);
      }
    }
  }

  /** How a directory listing asks for another order of its column. */
  function SortLink(column: char): string {
    "?C=" + [column] + ";O="
  }

  lemma SortLinks()
    ensures SortLink('N') == "?C=N;O=" && SortLink('M') == "?C=M;O=" && SortLink('S') == "?C=S;O=" && SortLink('D') == "?C=D;O="
  {
  }

  lemma SortingIff(url: string)
    ensures Sorting(url) <==> exists column :: column in "NMSD" && Contains(url, SortLink(column))
  {
    SortLinks();
    assert 'N' in "NMSD" && 'M' in "NMSD" && 'S' in "NMSD" && 'D' in "NMSD";
  }

  /** No URL within reach asks for an order of a listing by name, modification, size or description. */
  lemma ReachHasNoSortLink(args: Args, web: Web, n: nat, url: string, column: char)
    requires Within(args, web, n, url) && column in "NMSD"
    ensures !Contains(url, SortLink(column))
  {
    NotSorting(args, web, n, url);
    SortingIff(url);
  }

  /** Conversely, from a page within reach every link that extends its URL and
      asks for no such order is reached one level later, and the base is reached if it asks for none. */
  lemma LinksAreFollowed(args: Args, web: Web, n: nat, page: string, url: string)
    requires forall column :: column in "NMSD" ==> !Contains(url, SortLink(column))
    ensures url == args.baseUrl ==> Within(args, web, 1, url)
    ensures Within(args, web, n, page) && url in web(page) && page <= url && Targetless(args.fileTypes, page) ==>
      Within(args, web, n + 1, url)
  {
    SortingIff(url);
    if url == args.baseUrl {
      WithinBase(args, web);
    }
    if Within(args, web, n, page) && url in web(page) && page <= url && Targetless(args.fileTypes, page) {
      TargetlessIsPage(args.fileTypes, page);
      WithinNext(args, web, n, page, url);
    }
  }

  /** The URL ends neither with a file type nor with a file type and ".asc". */
  ghost predicate Targetless(types: seq<string>, url: string) {
    forall t :: t in types ==> !EndsWith(url, t) && !EndsWith(url, t + ".asc")
  }

  lemma {:induction false} TargetlessIsPage(types: seq<string>, url: string)
    ensures Classify(types, url).Page? <==> Targetless(types, url)
  {
    if types != [] {
      TargetlessIsPage(types[1..], url);
      assert forall t :: t in types <==> t == types[0] || t in types[1..];
    }
  }

  // ----- Sorting what was found -----

  /** A type and another type's signature suffix that can both end a URL which the
      other type itself does not end. */
  predicate Conflict(a: string, b: string) {
    (EndsWith(b + ".asc", a) || EndsWith(a, b + ".asc")) && !EndsWith(b + ".asc", b)
  }

  predicate Mixed(url: string, a: string, b: string) {
    EndsWith(url, a) && EndsWith(url, b + ".asc") && !EndsWith(url, b)
  }

  lemma SuffixEnd(url: string, suffix: string)
    requires suffix != ""
    ensures EndsWith(url, suffix) ==> url != "" && url[|url| - 1] == suffix[|suffix| - 1]
  {
    if EndsWith(url, suffix) {
      assert url[|url| - |suffix|..][|suffix| - 1] == url[|url| - 1];
    }
  }

  lemma SuffixTrans(url: string, longer: string, shorter: string)
    requires EndsWith(url, longer) && |shorter| <= |longer|
    ensures EndsWith(url, shorter) <==> EndsWith(longer, shorter)
  {
    assert longer == url[|url| - |longer|..];
    assert longer[|longer| - |shorter|..] == url[|url| - |shorter|..];
  }

  lemma EndsItself(url: string)
    ensures EndsWith(url, url)
  {
    assert url[0..] == url;
  }

  /** Whether two types conflict shows in the shortest URL that could mix them. */
  lemma ConflictIff(a: string, b: string)
    ensures Conflict(a, b) <==> exists url :: Mixed(url, a, b)
  {
    var signed := b + ".asc";
    if Conflict(a, b) {
      var url := if |a| <= |signed| then signed else a;
      EndsItself(a);
      EndsItself(signed);
      if EndsWith(a, signed) {
        SuffixTrans(a, signed, b);
      }
      if EndsWith(signed, a) && |signed| <= |a| {
        assert signed == a by {
          assert signed[|signed| - |a|..] == a;
        }
      }
      assert Mixed(url, a, b);
    }
    if url :| Mixed(url, a, b) {
      SuffixTrans(url, signed, b);
      if |a| <= |signed| {
        SuffixTrans(url, signed, a);
      } else {
        SuffixTrans(url, a, signed);
      }
    }
  }

  /** As long as the types do not conflict on a URL, it is an artifact if it ends
      with any of them, and a signature if it ends with any of them followed by ".asc"
      and with none of them alone. */
  lemma {:induction false} ClassifyUnmixed(types: seq<string>, url: string)
    requires forall a, b :: a in types && b in types ==> !Mixed(url, a, b)
    ensures Classify(types, url).Artifact? <==> exists t :: t in types && EndsWith(url, t)
    ensures Classify(types, url).Signature? <==>
      (exists t :: t in types && EndsWith(url, t + ".asc")) && forall t :: t in types ==> !EndsWith(url, t)
  {
    if types != [] {
      var first, rest := types[0], types[1..];
      assert forall t :: t in types <==> t == first || t in rest;
      ClassifyUnmixed(rest, url);
      assert forall t :: t in types ==> !Mixed(url, t, first) && !Mixed(url, first, t);
    }
  }

  ghost predicate SameElements(types: seq<string>, others: seq<string>) {
    forall t :: t in types <==> t in others
  }

  /** Neither the order of the types nor how often one is given matters for any URL. */
  ghost predicate OrderFree(types: seq<string>) {
    forall others, url :: SameElements(types, others) ==> Classify(types, url) == Classify(others, url)
  }

  lemma SwappedDiffer(types: seq<string>, a: string, b: string, url: string)
    requires a in types && b in types && Mixed(url, a, b)
    ensures SameElements(types, [a, b] + types) && SameElements(types, [b, a] + types)
    ensures Classify([a, b] + types, url).Artifact? && Classify([b, a] + types, url).Signature?
  {
    assert ([a, b] + types)[0] == a && ([b, a] + types)[0] == b;
  }

  /** The order does not matter if and only if no two of the types conflict. */
  lemma OrderFreeIff(types: seq<string>)
    ensures OrderFree(types) <==> forall a, b :: a in types && b in types ==> !Conflict(a, b)
  {
    if a, b :| a in types && b in types && Conflict(a, b) {
      ConflictIff(a, b);
      var url :| Mixed(url, a, b);
      SwappedDiffer(types, a, b, url);
      assert Classify(types, url) != Classify([a, b] + types, url) || Classify(types, url) != Classify([b, a] + types, url);
    } else {
      forall others, url | SameElements(types, others) ensures Classify(types, url) == Classify(others, url) {
        forall a, b | a in types && b in types ensures !Mixed(url, a, b) {
          ConflictIff(a, b);
        }
        ClassifyUnmixed(types, url);
        ClassifyUnmixed(others, url);
      }
    }
  }

  lemma LastCharacter(a: string, b: string)
    requires a in PERMITTED_TYPES && b in PERMITTED_TYPES
    ensures a != "" && a[|a| - 1] != 'c' && (b + ".asc")[|b + ".asc"| - 1] == 'c'
  {
  }

  lemma PermittedDoNotConflict(a: string, b: string)
    requires a in PERMITTED_TYPES && b in PERMITTED_TYPES
    ensures !Conflict(a, b)
  {
    LastCharacter(a, b);
    SuffixEnd(b + ".asc", a);
    SuffixEnd(a, b + ".asc");
  }

  /** So it does not matter for the types that the form permits. */
  lemma PermittedOrderFree(types: seq<string>)
    requires forall t :: t in types ==> t in PERMITTED_TYPES
    ensures OrderFree(types)
  {
    forall a, b | a in types && b in types ensures !Conflict(a, b) {
      PermittedDoNotConflict(a, b);
    }
    OrderFreeIff(types);
  }

  /** With them, a URL is an artifact if it ends with any of them, and a signature
      if it ends with any of them followed by ".asc". */
  lemma ClassifyPermitted(types: seq<string>, url: string)
    requires forall t :: t in types ==> t in PERMITTED_TYPES
    ensures Classify(types, url).Artifact? <==> exists t :: t in types && EndsWith(url, t)
    ensures Classify(types, url).Signature? <==> exists t :: t in types && EndsWith(url, t + ".asc")
  {
    forall a, b | a in types && b in types
      ensures !Mixed(url, a, b)
      ensures EndsWith(url, a) ==> !EndsWith(url, b + ".asc")
    {
      LastCharacter(a, b);
      SuffixEnd(url, a);
      SuffixEnd(url, b + ".asc");
    }
    ClassifyUnmixed(types, url);
  }

  lemma ClassifyOrderFree(types: seq<string>, others: seq<string>, url: string)
    requires forall t :: t in types ==> t in PERMITTED_TYPES
    requires SameElements(types, others)
    ensures Classify(types, url) == Classify(others, url)
  {
    PermittedOrderFree(types);
  }

  /** Types that conflict: the order decides whether this URL is an artifact. */
  lemma OrderCanMatter()
    ensures Conflict(".asc", ".gz")
    ensures Classify([".gz", ".asc"], "a.gz.asc").Signature?
    ensures Classify([".asc", ".gz"], "a.gz.asc").Artifact?
  {
    var url := "a.gz.asc";
    assert url[4..] == ".asc" && url[1..] == ".gz.asc" == ".gz" + ".asc";
    assert url[5..] == "asc" != ".gz";
    assert (".gz" + ".asc")[3..] == ".asc" && (".gz" + ".asc")[4..] == "asc";
    assert [".gz", ".asc"][0] == ".gz" && [".asc", ".gz"][0] == ".asc";
  }

  // ----- The code -----

  predicate NoDuplicates(s: seq<string>) {
    forall i, j :: 0 <= i < j < |s| ==> s[i] != s[j]
  }

  /** `s` lists exactly the URLs of `urls` that are of the given kind, each once. */
  ghost predicate ListsKind(s: seq<string>, urls: set<string>, fileTypes: seq<string>, kind: Kind) {
    NoDuplicates(s) && forall u :: u in s <==> u in urls && Classify(fileTypes, u) == kind
  }

  lemma ListsMore(s: seq<string>, urls: set<string>, fileTypes: seq<string>, kind: Kind, url: string)
    requires ListsKind(s, urls, fileTypes, kind) && url !in urls
    ensures Classify(fileTypes, url) == kind ==> ListsKind(s + [url], urls + {url}, fileTypes, kind)
    ensures Classify(fileTypes, url) != kind ==> ListsKind(s, urls + {url}, fileTypes, kind)
  {
    assert url !in s;
    assert forall u :: u in s + [url] <==> u in s || u == url;
  }

  /** The lists that the crawl collects its findings in. */
  class Findings {
    var artifacts: seq<string>
    var signatures: seq<string>

    constructor ()
      ensures artifacts == [] && signatures == []
    {
      artifacts, signatures := [], [];
    }

    method CheckMatches(fileTypes: seq<string>, url: string) returns (matched: bool)
      modifies this
      ensures matched <==> !Classify(fileTypes, url).Page?
      ensures artifacts == old(artifacts) + if Classify(fileTypes, url).Artifact? then [url] else []
      ensures signatures == old(signatures) + if Classify(fileTypes, url).Signature? then [url] else []
    {
      for i := 0 to |fileTypes|
        invariant Classify(fileTypes, url) == Classify(fileTypes[i..], url)
        invariant artifacts == old(artifacts) && signatures == old(signatures)
      {
        var rest := fileTypes[i..];
        assert rest[0] == fileTypes[i] && rest[1..] == fileTypes[i + 1..];
        if EndsWith(url, fileTypes[i]) {
          artifacts := artifacts + [url];
          return true;
        } else if EndsWith(url, fileTypes[i] + ".asc") {
          signatures := signatures + [url];
          return true;
        }
      }
      matched := false;
    }
  }

  /** The filter on the links of a page: it keeps those that start with the
      page's URL, as often as they occur. */
  method ExtractLinks(resolved: seq<string>, page: string) returns (urls: seq<string>)
    ensures forall u :: multiset(urls)[u] == if page <= u then multiset(resolved)[u] else 0
  {
    urls := [];
    for i := 0 to |resolved|
      invariant forall u :: multiset(urls)[u] == if page <= u then multiset(resolved[..i])[u] else 0
    {
      assert resolved[..i + 1] == resolved[..i] + [resolved[i]];
      if page <= resolved[i] {
        urls := urls + [resolved[i]];
      }
    }
    assert resolved[..|resolved|] == resolved;
  }

  /** Each queued URL starts with the base, is as much longer as its depth asks,
      and is one of the next level unless it is a sorting link. */
  ghost predicate QueueOk(args: Args, web: Web, queue: seq<string>, depth: nat) {
    forall u :: u in queue ==>
      && args.baseUrl <= u && |args.baseUrl| + depth <= |u|
      && (Sorting(u) || Within(args, web, depth + 1, u))
  }

  /** Everything one link further is seen already or waits in the queue. */
  ghost predicate Frontier(args: Args, web: Web, seen: set<string>, queue: seq<string>) {
    && (Sorting(args.baseUrl) || args.baseUrl in seen || args.baseUrl in queue)
    && forall p, u :: p in seen && Linking(args, web, p, u) ==> u in seen || u in queue
  }

  lemma PassedOver(args: Args, web: Web, seen: set<string>, url: string, queue: seq<string>)
    requires Frontier(args, web, seen, [url] + queue) && (url in seen || Sorting(url))
    ensures Frontier(args, web, seen, queue)
  {
    assert forall u :: u in [url] + queue ==> u == url || u in queue;
  }

  lemma Visited(args: Args, web: Web, seen: set<string>, url: string, queue: seq<string>, more: seq<string>)
    requires Frontier(args, web, seen, [url] + queue)
    requires forall u :: Linking(args, web, url, u) ==> u in seen + {url} || u in more
    ensures Frontier(args, web, seen + {url}, queue + more)
  {
    assert forall u :: u in [url] + queue ==> u == url || u in queue + more;
  }

  lemma ChildrenOk(args: Args, web: Web, url: string, depth: nat, seen: set<string>, more: seq<string>)
    requires Within(args, web, depth + 1, url) && IsPage(args, url) && url in seen
    requires args.baseUrl <= url && |args.baseUrl| + depth <= |url|
    requires forall u :: u in more ==> u in web(url) && url <= u && u !in seen
    ensures QueueOk(args, web, more, depth + 1)
  {
    forall u | u in more
      ensures args.baseUrl <= u && |args.baseUrl| + depth + 1 <= |u|
      ensures Sorting(u) || Within(args, web, depth + 2, u)
    {
      PrefixTrans(args.baseUrl, url, u);
      LongerPrefix(url, u);
      if !Sorting(u) {
        WithinNext(args, web, depth + 1, url, u);
      }
    }
  }

  method Enqueue(urls: seq<string>, seen: set<string>, queue: seq<string>)
    returns (queue': seq<string>, added: nat, ghost more: seq<string>)
    ensures queue' == queue + more && added == |more|
    ensures forall u :: u in more <==> u in urls && u !in seen
  {
    queue', added, more := queue, 0, [];
    for i := 0 to |urls|
      invariant queue' == queue + more && added == |more|
      invariant forall u :: u in more <==> u in urls[..i] && u !in seen
    {
      assert urls[..i + 1] == urls[..i] + [urls[i]];
      if urls[i] !in seen {
        queue', added, more := queue' + [urls[i]], added + 1, more + [urls[i]];
      }
    }
    assert urls[..|urls|] == urls;
  }

  /** What has been seen is exactly what lies within n levels. */
  ghost predicate SeenWithin(args: Args, web: Web, seen: set<string>, n: nat) {
    forall u :: u in seen <==> Within(args, web, n, u)
  }

  /** Between two levels. */
  ghost predicate AtLevel(args: Args, web: Web, seen: set<string>, queue: seq<string>, depth: nat) {
    SeenWithin(args, web, seen, depth) && QueueOk(args, web, queue, depth) && Frontier(args, web, seen, queue)
  }

  /** Inside a level: `level` is what the queue held when the level began, of
      which i URLs are processed, and `next` is what was queued since. */
  ghost predicate InLevel(args: Args, web: Web, seen: set<string>, queue: seq<string>, depth: nat,
                          level: seq<string>, i: nat, next: seq<string>) {
    && i <= |level| && queue == level[i..] + next
    && QueueOk(args, web, level, depth) && QueueOk(args, web, next, depth + 1)
    && Frontier(args, web, seen, queue)
    && Reached(args, web, seen, depth + 1) && Covers(args, web, seen, level[i..], depth + 1)
  }

  ghost predicate Reached(args: Args, web: Web, seen: set<string>, n: nat) {
    forall u :: u in seen ==> Within(args, web, n, u)
  }

  ghost predicate Covers(args: Args, web: Web, seen: set<string>, rest: seq<string>, n: nat) {
    forall u :: Within(args, web, n, u) ==> u in seen || u in rest
  }

  lemma StillCovers(args: Args, web: Web, seen: set<string>, url: string, rest: seq<string>, n: nat)
    requires Covers(args, web, seen, [url] + rest, n)
    ensures Covers(args, web, seen + {url}, rest, n)
    ensures url in seen || Sorting(url) ==> Covers(args, web, seen, rest, n)
  {
    forall u | Within(args, web, n, u) ensures u in seen || u == url || u in rest {
      assert u in seen || u in [url] + rest;
    }
    if Sorting(url) && Within(args, web, n, url) {
      NotSorting(args, web, n, url);
    }
  }

  lemma CrawlBegins(args: Args, web: Web)
    ensures AtLevel(args, web, {}, [args.baseUrl], 0)
  {
    if !Sorting(args.baseUrl) {
      WithinBase(args, web);
    }
  }

  lemma LevelBegins(args: Args, web: Web, seen: set<string>, queue: seq<string>, depth: nat)
    requires AtLevel(args, web, seen, queue, depth)
    ensures InLevel(args, web, seen, queue, depth, queue, 0, [])
  {
    assert queue[0..] == queue == queue + [];
    forall u | u in seen ensures Within(args, web, depth + 1, u) {
      WithinMore(args, web, depth, depth + 1, u);
    }
    forall u | Within(args, web, depth + 1, u) ensures u in seen || u in queue {
      NextIsQueued(args, web, seen, queue, depth, u);
    }
  }

  lemma NextIsQueued(args: Args, web: Web, seen: set<string>, queue: seq<string>, depth: nat, u: string)
    requires SeenWithin(args, web, seen, depth) && Frontier(args, web, seen, queue) && Within(args, web, depth + 1, u)
    ensures u in seen || u in queue
  {
    var p := LastHop(args, web, depth + 1, u);
  }

  lemma Shift(level: seq<string>, i: nat, next: seq<string>, queue: seq<string>)
    requires i < |level| && queue == level[i..] + next
    ensures queue != [] && queue[0] == level[i] && queue == [level[i]] + queue[1..]
    ensures queue[1..] == level[i + 1..] + next && level[i..] == [level[i]] + level[i + 1..]
  {
  }

  lemma NotSorting(args: Args, web: Web, n: nat, u: string)
    requires Within(args, web, n, u)
    ensures !Sorting(u)
  {
    var p := LastHop(args, web, n, u);
  }

  lemma LevelSkips(args: Args, web: Web, seen: set<string>, queue: seq<string>, depth: nat,
                   level: seq<string>, i: nat, next: seq<string>)
    requires InLevel(args, web, seen, queue, depth, level, i, next)
    requires i < |level| && UrlExcluded(seen, level[i], args)
    ensures InLevel(args, web, seen, queue[1..], depth, level, i + 1, next)
  {
    Shift(level, i, next, queue);
    assert level[i] in level;
    PassedOver(args, web, seen, level[i], queue[1..]);
    StillCovers(args, web, seen, level[i], level[i + 1..], depth + 1);
  }

  lemma QueueOkPlus(args: Args, web: Web, queue: seq<string>, more: seq<string>, depth: nat)
    requires QueueOk(args, web, queue, depth) && QueueOk(args, web, more, depth)
    ensures QueueOk(args, web, queue + more, depth)
  {
  }

  /** What is queued when a page is visited: its links that extend its URL and are not seen yet. */
  ghost predicate QueuedFrom(args: Args, web: Web, url: string, seen: set<string>, more: seq<string>) {
    if IsPage(args, url) then forall u :: u in more <==> u in web(url) && url <= u && u !in seen else more == []
  }

  lemma LevelVisits(args: Args, web: Web, seen: set<string>, queue: seq<string>, depth: nat,
                    level: seq<string>, i: nat, next: seq<string>, more: seq<string>)
    requires InLevel(args, web, seen, queue, depth, level, i, next)
    requires i < |level| && !UrlExcluded(seen, level[i], args)
    requires QueuedFrom(args, web, level[i], seen + {level[i]}, more)
    ensures InLevel(args, web, seen + {level[i]}, queue[1..] + more, depth, level, i + 1, next + more)
  {
    var url := level[i];
    Shift(level, i, next, queue);
    Visited(args, web, seen, url, queue[1..], more);
    Associative(level[i + 1..], next, more);
    assert url in level;
    if IsPage(args, url) {
      ChildrenOk(args, web, url, depth, seen + {url}, more);
    }
    QueueOkPlus(args, web, next, more, depth + 1);
    StillCovers(args, web, seen, url, level[i + 1..], depth + 1);
  }

  lemma LevelEnds(args: Args, web: Web, seen: set<string>, queue: seq<string>, depth: nat, level: seq<string>, next: seq<string>)
    requires InLevel(args, web, seen, queue, depth, level, |level|, next)
    ensures AtLevel(args, web, seen, queue, depth + 1) && queue == next
  {
    assert level[|level|..] == [];
  }

  lemma NothingWaits(args: Args, web: Web, seen: set<string>, depth: nat, maxDepth: nat)
    requires AtLevel(args, web, seen, [], depth) && depth <= maxDepth
    ensures SeenWithin(args, web, seen, maxDepth)
  {
    forall u | Within(args, web, depth + 1, u) ensures Within(args, web, depth, u) {
      NextIsQueued(args, web, seen, [], depth, u);
    }
    forall u ensures u in seen <==> Within(args, web, maxDepth, u) {
      if Within(args, web, maxDepth, u) {
        StaysSettled(args, web, depth, maxDepth, u);
      } else if u in seen {
        WithinMore(args, web, depth, maxDepth, u);
      }
    }
  }

  /** What the lists hold: the target files seen, and the pages fetched. */
  ghost predicate Collected(findings: Findings, fetched: seq<string>, seen: set<string>, fileTypes: seq<string>)
    reads findings
  {
    && ListsKind(findings.artifacts, seen, fileTypes, Artifact)
    && ListsKind(findings.signatures, seen, fileTypes, Signature)
    && ListsKind(fetched, seen, fileTypes, Page)
  }

  lemma OneMore(findings: Findings, fetched: seq<string>, seen: set<string>, fileTypes: seq<string>, url: string)
    requires Collected(findings, fetched, seen, fileTypes) && url !in seen
    ensures
      var kind := Classify(fileTypes, url);
      && ListsKind(findings.artifacts + (if kind.Artifact? then [url] else []), seen + {url}, fileTypes, Artifact)
      && ListsKind(findings.signatures + (if kind.Signature? then [url] else []), seen + {url}, fileTypes, Signature)
      && ListsKind(fetched + (if kind.Page? then [url] else []), seen + {url}, fileTypes, Page)
  {
    ListsMore(findings.artifacts, seen, fileTypes, Artifact, url);
    ListsMore(findings.signatures, seen, fileTypes, Signature, url);
    ListsMore(fetched, seen, fileTypes, Page, url);
    assert findings.artifacts + [] == findings.artifacts && findings.signatures + [] == findings.signatures;
    assert fetched + [] == fetched;
  }

  /** The effect of taking one URL off the queue. */
  ghost predicate Processed(args: Args, web: Web, url: string, seen: set<string>, seen': set<string>, more: seq<string>) {
    if UrlExcluded(seen, url, args) then seen' == seen && more == []
    else seen' == seen + {url} && QueuedFrom(args, web, url, seen', more)
  }

  lemma LevelStep(args: Args, web: Web, seen: set<string>, seen': set<string>, queue: seq<string>, depth: nat,
                  level: seq<string>, i: nat, next: seq<string>, more: seq<string>)
    requires InLevel(args, web, seen, queue, depth, level, i, next)
    requires i < |level| && Processed(args, web, level[i], seen, seen', more)
    ensures InLevel(args, web, seen', queue[1..] + more, depth, level, i + 1, next + more)
  {
    if UrlExcluded(seen, level[i], args) {
      LevelSkips(args, web, seen, queue, depth, level, i, next);
      assert queue[1..] + more == queue[1..] && next + more == next;
    } else {
      LevelVisits(args, web, seen, queue, depth, level, i, next, more);
    }
  }

  /** One turn of the inner loop: the URL is passed over, or seen and sorted, and
      fetched if it is a page. */
  method ProcessUrl(args: Args, web: Web, findings: Findings, url: string, seen: set<string>, queue: seq<string>,
                    ghost fetched: seq<string>)
    returns (seen': set<string>, queue': seq<string>, added: nat, ghost more: seq<string>, ghost fetched': seq<string>)
    requires Collected(findings, fetched, seen, args.fileTypes)
    modifies findings
    ensures Collected(findings, fetched', seen', args.fileTypes)
    ensures Processed(args, web, url, seen, seen', more)
    ensures queue' == queue + more && added == |more|
  {
    seen', queue', added, more, fetched' := seen, queue, 0, [], fetched;
    if UrlExcluded(seen, url, args) {
      return;
    }
    OneMore(findings, fetched, seen, args.fileTypes, url);
    seen' := seen + {url};
    var matched := findings.CheckMatches(args.fileTypes, url);
    if !matched {
      var newUrls := ExtractLinks(web(url), url);
      fetched' := fetched + [url];
      queue', added, more := Enqueue(newUrls, seen', queue);
      assert forall u :: u in newUrls <==> u in web(url) && url <= u by {
        assert forall u :: multiset(newUrls)[u] > 0 <==> u in newUrls;
        assert forall u :: multiset(web(url))[u] > 0 <==> u in web(url);
      }
    } else {
      assert fetched + [] == fetched;
    }
  }

  /** No URL asks for an order of a listing. */
  ghost predicate NoSortLinks(urls: set<string>) {
    forall url, column :: url in urls && column in "NMSD" ==> !Contains(url, SortLink(column))
  }

  ghost predicate FetchesTargetless(fetched: seq<string>, seen: set<string>, fileTypes: seq<string>) {
    forall url :: url in fetched <==> url in seen && Targetless(fileTypes, url)
  }

  lemma CrawlIsClean(args: Args, web: Web, seen: set<string>, fetched: seq<string>)
    requires SeenWithin(args, web, seen, if args.maxDepth < 0 then 0 else args.maxDepth)
    requires ListsKind(fetched, seen, args.fileTypes, Page)
    ensures NoSortLinks(seen) && FetchesTargetless(fetched, seen, args.fileTypes)
  {
    forall url, column | url in seen && column in "NMSD" ensures !Contains(url, SortLink(column)) {
      ReachHasNoSortLink(args, web, if args.maxDepth < 0 then 0 else args.maxDepth, url, column);
    }
    forall url ensures url in fetched <==> url in seen && Targetless(args.fileTypes, url) {
      TargetlessIsPage(args.fileTypes, url);
    }
  }

  /** The crawl sees exactly the URLs within fewer than max_depth links of the
      base, sorts the target files among them into artifacts and signatures, each
      once, and fetches each of the others once and nothing else. */
  method ArtifactUrls(args: Args, web: Web)
    returns (signatures: seq<string>, artifacts: seq<string>, seen: set<string>, ghost fetched: seq<string>)
    ensures SeenWithin(args, web, seen, if args.maxDepth < 0 then 0 else args.maxDepth)
    ensures ListsKind(artifacts, seen, args.fileTypes, Artifact)
    ensures ListsKind(signatures, seen, args.fileTypes, Signature)
    ensures ListsKind(fetched, seen, args.fileTypes, Page)
    ensures NoSortLinks(seen) && FetchesTargetless(fetched, seen, args.fileTypes)
  {
    var findings := new Findings();
    seen, fetched := {}, [];
    var queue := [args.baseUrl];
    var depth := 0;
    var urlsAtCurrentDepth, urlsAtNextDepth := 1, 0;
    CrawlBegins(args, web);
    while queue != [] && depth < args.maxDepth
      invariant 0 <= depth && (depth <= args.maxDepth || depth == 0)
      invariant urlsAtCurrentDepth == |queue| && urlsAtNextDepth == 0
      invariant AtLevel(args, web, seen, queue, depth)
      invariant Collected(findings, fetched, seen, args.fileTypes)
      decreases args.maxDepth - depth
    {
      ghost var level, next: seq<string> := queue, [];
      LevelBegins(args, web, seen, queue, depth);
      for i := 0 to urlsAtCurrentDepth
        invariant InLevel(args, web, seen, queue, depth, level, i, next)
        invariant |level| == urlsAtCurrentDepth && urlsAtNextDepth == |next|
        invariant |queue| == urlsAtCurrentDepth - i + urlsAtNextDepth
        invariant Collected(findings, fetched, seen, args.fileTypes)
      {
        if queue == [] {
          assert false;
          break;
        }
        Shift(level, i, next, queue);
        ghost var before, seenBefore := queue, seen;
        var added;
        ghost var more;
        seen, queue, added, more, fetched := ProcessUrl(args, web, findings, queue[0], seen, queue[1..], fetched);
        urlsAtNextDepth := urlsAtNextDepth + added;
        LevelStep(args, web, seenBefore, seen, before, depth, level, i, next, more);
        next := next + more;
      }
      LevelEnds(args, web, seen, queue, depth, level, next);
      depth := depth + 1;
      urlsAtCurrentDepth, urlsAtNextDepth := urlsAtNextDepth, 0;
    }
    if depth < args.maxDepth {
      NothingWaits(args, web, seen, depth, args.maxDepth);
    }
    signatures, artifacts := findings.signatures, findings.artifacts;
    CrawlIsClean(args, web, seen, fetched);
  }
}
