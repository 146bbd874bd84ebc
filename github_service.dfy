/**
 * The repository importer of the single-page app: it reads `owner/repo` out of a GitHub
 * URL, fetches the repository's file tree (falling back from `main` to `master`), and
 * picks at most 20 source files from it.
 */
module GithubService {
  import opened Wrappers
  import opened JsText

  /** The `{ owner, repo }` pair `parseRepoUrl` returns. */
  datatype RepoRef = RepoRef(owner: string, repo: string)

  /**
   * `parseRepoUrl`. `pathnameOf` is the `pathname` of `new URL(url)`, or `None` where the
   * constructor throws (the source then answers `null`).
   */
  function ParseRepoUrl(url: string, pathnameOf: string -> Option<string>): (r: Option<RepoRef>)
    ensures pathnameOf(url).None? ==> r.None?
    ensures pathnameOf(url).Some? ==>
      var parts := NonEmpty(Split(pathnameOf(url).value, '/'));
      (r.Some? <==> |parts| >= 2) && (r.Some? ==> r.value == RepoRef(parts[0], parts[1]))
  {
    match pathnameOf(url)
    case None => None
    case Some(pathname) =>
      var parts := NonEmpty(Split(pathname, '/'));
      if |parts| < 2 then None else Some(RepoRef(parts[0], parts[1]))
  }

  /** A path segment: not empty, with no `/` in it. */
  predicate Segment(s: string) {
    s != [] && '/' !in s
  }

  /** Whatever the URL, a parsed owner and repo are each one non-empty path segment. */
  lemma ParsedAreSegments(url: string, pathnameOf: string -> Option<string>)
    requires ParseRepoUrl(url, pathnameOf).Some?
    ensures Segment(ParseRepoUrl(url, pathnameOf).value.owner)
    ensures Segment(ParseRepoUrl(url, pathnameOf).value.repo)
  {
    var parts := NonEmpty(Split(pathnameOf(url).value, '/'));
    assert parts[0] in Split(pathnameOf(url).value, '/');
    assert parts[1] in Split(pathnameOf(url).value, '/');
  }

  /** Empty pieces in front are dropped by `filter(Boolean)`. */
  lemma NonEmptyCons(a: string, rest: seq<string>)
    ensures NonEmpty([a] + rest) == (if a == [] then NonEmpty(rest) else [a] + NonEmpty(rest))
  {
    assert ([a] + rest)[1..] == rest;
  }

  /** The repo segment and whatever follows it split into the repo and then the rest's pieces. */
  lemma SplitRepoTail(repo: string, rest: string) returns (tail: seq<string>)
    requires Segment(repo)
    requires rest == [] || rest[0] == '/'
    ensures Split(repo + rest, '/') == [repo] + tail
  {
    if rest == [] {
      SplitWhole(repo, '/');
      assert repo + rest == repo;
      tail := [];
    } else {
      SplitAfterPiece(repo, '/', rest[1..]);
      assert repo + ['/'] + rest[1..] == repo + rest;
      tail := Split(rest[1..], '/');
    }
  }

  /** A leading separator splits off an empty piece. */
  lemma SplitLeading(c: char, b: string)
    ensures Split([c] + b, c) == [[]] + Split(b, c)
  {
    assert ([c] + b)[1..] == b;
  }

  /** `/owner/` followed by anything splits into an empty piece, the owner, then the rest's pieces. */
  lemma SplitOwner(owner: string, more: string)
    requires Segment(owner)
    ensures Split("/" + owner + "/" + more, '/') == [[], owner] + Split(more, '/')
  {
    var a := owner + ['/'] + more;
    SplitAfterPiece(owner, '/', more);
    SplitLeading('/', a);
    SlashOwner(owner, more);
    ConsTwo([], owner, Split(more, '/'));
  }

  lemma SlashOwner(owner: string, more: string)
    ensures ['/'] + (owner + ['/'] + more) == "/" + owner + "/" + more
  {
  }

  lemma ConsTwo<T>(x: T, y: T, s: seq<T>)
    ensures [x] + ([y] + s) == [x, y] + s
  {
  }

  /** Dropping the empty pieces of `["", owner, repo, ...]` leaves the owner and the repo in front. */
  lemma NonEmptyOwnerRepo(owner: string, repo: string, tail: seq<string>)
    requires owner != [] && repo != []
    ensures var parts := NonEmpty([[], owner] + ([repo] + tail));
      |parts| >= 2 && parts[0] == owner && parts[1] == repo
  {
    var rest := [owner] + ([repo] + tail);
    assert [[], owner] + ([repo] + tail) == [[]] + rest;
    NonEmptyCons([], rest);
    NonEmptyCons(owner, [repo] + tail);
    NonEmptyCons(repo, tail);
  }

  /**
   * The path `/owner/repo`, optionally followed by more segments (`/tree/main/src`, a
   * trailing `/`), parses back to exactly that owner and repo; what follows is ignored.
   */
  lemma ParseRepoPath(url: string, pathnameOf: string -> Option<string>, owner: string, repo: string, rest: string)
    requires Segment(owner) && Segment(repo)
    requires rest == [] || rest[0] == '/'
    requires pathnameOf(url) == Some("/" + owner + "/" + repo + rest)
    ensures ParseRepoUrl(url, pathnameOf) == Some(RepoRef(owner, repo))
  {
    var more := repo + rest;
    assert "/" + owner + "/" + repo + rest == "/" + owner + "/" + more;
    var tail := SplitRepoTail(repo, rest);
    SplitOwner(owner, more);
    NonEmptyOwnerRepo(owner, repo, tail);
  }

  /** A path that holds fewer than two segments gives no repository. */
  lemma OneSegmentIsNotARepo(url: string, pathnameOf: string -> Option<string>, owner: string)
    requires '/' !in owner
    requires pathnameOf(url) == Some("/" + owner)
    ensures ParseRepoUrl(url, pathnameOf).None?
  {
    SplitWhole(owner, '/');
    SplitAfterPiece([], '/', owner);
    assert [] + ['/'] + owner == "/" + owner;
    NonEmptyCons([], [owner]);
    NonEmptyCons(owner, []);
  }

  /** The `type` of a tree entry: a file or a directory. */
  datatype EntryType = Blob | Tree

  /** One entry of the recursive tree listing. */
  datatype TreeItem = TreeItem(path: string, kind: EntryType, url: string, size: Option<int>)

  /** `relevantExtensions`. */
  const Extensions: seq<string> := [".ts", ".tsx", ".js", ".jsx", ".py", ".java", ".md", ".json", ".html", ".css"]

  /** `exts.some(ext => path.endsWith(ext))`. */
  predicate EndsWithAny(path: string, exts: seq<string>)
    ensures EndsWithAny(path, exts) <==> exists i :: 0 <= i < |exts| && EndsWith(path, exts[i])
  {
    if exts == [] then false
    else EndsWith(path, exts[0]) || EndsWithAny(path, exts[1..])
  }

  /** `items.filter(keep)`. */
  function Filter(items: seq<TreeItem>, keep: TreeItem -> bool): (r: seq<TreeItem>)
    ensures forall x :: x in r <==> x in items && keep(x)
    ensures |r| <= |items|
  {
    if items == [] then []
    else if keep(items[0]) then [items[0]] + Filter(items[1..], keep)
    else Filter(items[1..], keep)
  }

  /** Two filters in a row are one filter by a test that keeps what both keep. */
  lemma {:induction false} FilterFilter(items: seq<TreeItem>, p: TreeItem -> bool, q: TreeItem -> bool,
                                        both: TreeItem -> bool)
    requires forall x :: both(x) == (p(x) && q(x))
    ensures Filter(Filter(items, p), q) == Filter(items, both)
  {
    if items != [] {
      FilterFilter(items[1..], p, q, both);
      if p(items[0]) {
        var f := Filter(items, p);
        assert f[0] == items[0] && f[1..] == Filter(items[1..], p);
      }
    }
  }

  predicate IsBlob(item: TreeItem) {
    item.kind == Blob
  }

  predicate HasExtension(item: TreeItem) {
    EndsWithAny(item.path, Extensions)
  }

  predicate NotPackageLock(item: TreeItem) {
    !Contains(item.path, "package-lock.json")
  }

  predicate NotYarnLock(item: TreeItem) {
    !Contains(item.path, "yarn.lock")
  }

  /** The most files an import picks. */
  const MaxFiles: nat := 20

  /** The whole filter chain of `fetchRepoContents`. */
  function SelectFiles(tree: seq<TreeItem>): seq<TreeItem> {
    Take(FilterChain(tree), MaxFiles)
  }

  /** The four `.filter` calls, in the source's order. */
  function FilterChain(tree: seq<TreeItem>): seq<TreeItem> {
    Filter(Filter(Filter(Filter(tree, IsBlob), HasExtension), NotPackageLock), NotYarnLock)
  }

  /** What the four filters keep, as one test. */
  predicate Qualifies(item: TreeItem) {
    item.kind == Blob && EndsWithAny(item.path, Extensions) &&
    !Contains(item.path, "package-lock.json") && !Contains(item.path, "yarn.lock")
  }

  /** What the first two filters keep. */
  predicate SourceBlob(item: TreeItem) {
    IsBlob(item) && HasExtension(item)
  }

  /** What the first three filters keep. */
  predicate SourceBlobNoPackageLock(item: TreeItem) {
    SourceBlob(item) && NotPackageLock(item)
  }

  /** The four filters in a row keep exactly the qualifying entries, in their order. */
  lemma ChainIsQualifying(tree: seq<TreeItem>)
    ensures FilterChain(tree) == Filter(tree, Qualifies)
  {
    FilterFilter(tree, IsBlob, HasExtension, SourceBlob);
    FilterFilter(tree, SourceBlob, NotPackageLock, SourceBlobNoPackageLock);
    FilterFilter(tree, SourceBlobNoPackageLock, NotYarnLock, Qualifies);
  }

  /**
   * The selection is the first 20 qualifying entries in tree order: it holds only
   * qualifying entries, at most 20 of them, and every qualifying entry when there are
   * no more than 20.
   */
  lemma SelectionIsFirstQualifying(tree: seq<TreeItem>)
    ensures SelectFiles(tree) == Take(Filter(tree, Qualifies), MaxFiles)
    ensures |SelectFiles(tree)| <= MaxFiles
    ensures forall x :: x in SelectFiles(tree) ==> x in tree && Qualifies(x)
    ensures |Filter(tree, Qualifies)| <= MaxFiles ==> forall x :: x in tree && Qualifies(x) ==> x in SelectFiles(tree)
  {
    ChainIsQualifying(tree);
    var q := Filter(tree, Qualifies);
    forall x | x in SelectFiles(tree) ensures x in tree && Qualifies(x) {
      var i :| 0 <= i < |SelectFiles(tree)| && SelectFiles(tree)[i] == x;
      assert q[i] == x;
    }
  }

  /** Lock files are never imported, whatever the tree holds. */
  lemma NoLockFiles(tree: seq<TreeItem>, item: TreeItem)
    requires item in SelectFiles(tree)
    ensures !Contains(item.path, "package-lock.json") && !Contains(item.path, "yarn.lock")
  {
    SelectionIsFirstQualifying(tree);
  }

  /** The tree listing URL of a branch. */
  function TreeUrl(owner: string, repo: string, branch: string): string {
    "https://api.github.com/repos/" + owner + "/" + repo + "/git/trees/" + branch + "?recursive=1"
  }

  const TreeFailure: string := "Failed to fetch repository tree: "

  /**
   * The tree half of `fetchRepoContents`: `fetch` answers a URL with the listing, or with
   * the response's `statusText` when it is not ok. A failure on `main` retries once on
   * `master`; a failure on any other branch is thrown. On success the chain picks the files.
   */
  function FetchRepoTree(owner: string, repo: string, branch: string, fetch: string -> Result<seq<TreeItem>, string>):
    (r: Result<seq<TreeItem>, string>)
    ensures fetch(TreeUrl(owner, repo, branch)).Success? ==>
      r == Success(SelectFiles(fetch(TreeUrl(owner, repo, branch)).value))
    ensures fetch(TreeUrl(owner, repo, branch)).Failure? && branch != "main" ==>
      r == Failure(TreeFailure + fetch(TreeUrl(owner, repo, branch)).error)
    decreases if branch == "main" then 1 else 0
  {
    match fetch(TreeUrl(owner, repo, branch))
    case Success(tree) => Success(SelectFiles(tree))
    case Failure(statusText) =>
      if branch == "main" then FetchRepoTree(owner, repo, "master", fetch)
      else Failure(TreeFailure + statusText)
  }

  /**
   * The default branch: a repository without `main` is read from `master`, and when both
   * fail the error is the `master` response's.
   */
  lemma MainFallsBackToMaster(owner: string, repo: string, fetch: string -> Result<seq<TreeItem>, string>)
    requires fetch(TreeUrl(owner, repo, "main")).Failure?
    ensures FetchRepoTree(owner, repo, "main", fetch) == FetchRepoTree(owner, repo, "master", fetch)
    ensures var m := fetch(TreeUrl(owner, repo, "master"));
      m.Failure? ==> FetchRepoTree(owner, repo, "main", fetch) == Failure(TreeFailure + m.error)
  {
  }
}
