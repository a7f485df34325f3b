/** The external lookups of services/toolsService.js once their HTTP calls
    have answered: parsing an arXiv Atom feed into papers and projecting the
    GitHub repository search items. The HTTP responses are inputs; a
    request that failed, or a body of the wrong shape, is an `Err`. */
module Tools {
  import opened Common
  import opened Strings

  /** The separator the feed is split on. */
  const EntryTag := "<entry>"
  /** Longest summary kept per paper. */
  const SummaryLimit: nat := 400

  datatype Paper = Paper(title: string, summary: string, url: string)

  /** One item of the GitHub search response (`full_name`, `description`,
      `stargazers_count`, `html_url`); a null description is `None`. */
  datatype RepoItem = RepoItem(fullName: string, description: Option<string>, stargazersCount: nat, htmlUrl: string)

  /** A repository as the service returns it. */
  datatype Repo = Repo(name: string, description: Option<string>, stars: nat, url: string)

  /** `open` at `p`, `close` at `q`, and the text between them does not
      overlap either tag: a match of the pattern `open([\s\S]*?)close`. */
  ghost predicate IsMatch(s: string, open: string, close: string, p: nat, q: nat) {
    OccursAt(s, open, p) && p + |open| <= q && OccursAt(s, close, q)
  }

  /** Capture group 1 of `s.match(/open([\s\S]*?)close/)`: the text between
      the first `open` and the first `close` after it. */
  function Capture(s: string, open: string, close: string): (r: Option<string>)
    ensures r.Some? ==> IsInfix(open + r.value + close, s)
  {
    match Find(s, open, 0)
    case None => None
    case Some(p) =>
      match Find(s, close, p + |open|)
      case None => None
      case Some(q) =>
        assert OccursAt(s, open + s[p + |open|..q] + close, p) by {
          assert s[p..q + |close|] == s[p..p + |open|] + s[p + |open|..q] + s[q..q + |close|];
        }
        Some(s[p + |open|..q])
  }

  /** The first-occurrence search finds exactly what the regular expression
      finds: no match at all, or the match that starts leftmost and, among
      those, ends first (the lazy quantifier). */
  lemma CaptureIsLeftmostShortest(s: string, open: string, close: string)
    ensures Capture(s, open, close).None? <==> forall p: nat, q: nat :: !IsMatch(s, open, close, p, q)
    ensures Capture(s, open, close).Some? ==>
      exists p: nat, q: nat ::
        && IsMatch(s, open, close, p, q)
        && Capture(s, open, close).value == s[p + |open|..q]
        && forall p': nat, q': nat :: IsMatch(s, open, close, p', q') ==> p < p' || (p == p' && q <= q')
  {
    match Find(s, open, 0)
    case None =>
    case Some(p) =>
      match Find(s, close, p + |open|)
      case None =>
      case Some(q) =>
        assert IsMatch(s, open, close, p, q);
  }

  /** The trimmed capture of one tag, or "" when the tag is absent
      (`entry.match(...)?.[1]?.trim() || ""`). */
  function Field(entry: string, open: string, close: string): (r: string)
    ensures Capture(entry, open, close).None? ==> r == ""
    ensures Capture(entry, open, close).Some? ==> r == Trim(Capture(entry, open, close).value)
  {
    match Capture(entry, open, close)
    case None => ""
    case Some(c) => Trim(c)
  }

  /** One `<entry>` chunk of the feed as a paper. The title is the trimmed
      title text with line feeds turned into spaces; the summary is the
      first 400 characters of the trimmed summary text, line feeds turned
      into spaces; neither carries a line feed. */
  function ParseEntry(entry: string): (r: Paper)
    ensures r.url == Field(entry, "<id>", "</id>")
    ensures |r.title| == |Field(entry, "<title>", "</title>")|
    ensures forall k :: 0 <= k < |r.title| ==>
      var t := Field(entry, "<title>", "</title>");
      r.title[k] == (if t[k] == '\n' then ' ' else t[k])
    ensures forall k :: 0 <= k < |r.title| ==> r.title[k] != '\n'
    ensures forall k :: 0 <= k < |r.summary| ==> r.summary[k] != '\n'
    ensures |r.summary| == Min(|Field(entry, "<summary>", "</summary>")|, SummaryLimit)
    ensures forall k :: 0 <= k < |r.summary| ==>
      var t := Field(entry, "<summary>", "</summary>");
      r.summary[k] == (if t[k] == '\n' then ' ' else t[k])
  {
    var title := Field(entry, "<title>", "</title>");
    var summary := Field(entry, "<summary>", "</summary>");
    var id := Field(entry, "<id>", "</id>");
    Paper(ReplaceNewlines(title), ReplaceNewlines(Prefix(summary, SummaryLimit)), id)
  }

  /** A title has no white space at either end: trimming came first, and it
      left no line feed there for the replacement to turn into a space. */
  lemma TitleIsTrimmed(entry: string)
    ensures var t := ParseEntry(entry).title;
      t != "" ==> !IsSpace(t[0]) && !IsSpace(t[|t| - 1])
  {
    var f := Field(entry, "<title>", "</title>");
    var t := ParseEntry(entry).title;
    if t != "" {
      assert f == Trim(Capture(entry, "<title>", "</title>").value);
      TrimEnds(Capture(entry, "<title>", "</title>").value);
      assert t[0] == f[0] && t[|t| - 1] == f[|f| - 1];
    }
  }

  /** The chunks of `raw.split("<entry>").slice(1)`: everything after each
      `<entry>`, in feed order, the header before the first one dropped. */
  function Entries(raw: string): (r: seq<string>)
    ensures |r| == Count(raw, EntryTag)
  {
    SplitLength(raw, EntryTag);
    Split(raw, EntryTag)[1..]
  }

  /** The feed is its header followed by each entry chunk, each one after
      an `<entry>` tag, in order. */
  lemma EntriesInOrder(raw: string)
    ensures Join([Split(raw, EntryTag)[0]] + Entries(raw), EntryTag) == raw
  {
    var pieces := Split(raw, EntryTag);
    assert [pieces[0]] + pieces[1..] == pieces;
    SplitJoin(raw, EntryTag);
  }

  function ParseEntries(entries: seq<string>): (r: seq<Paper>)
    ensures |r| == |entries|
    ensures forall k :: 0 <= k < |entries| ==> r[k] == ParseEntry(entries[k])
  {
    if entries == [] then [] else [ParseEntry(entries[0])] + ParseEntries(entries[1..])
  }

  /** One paper per `<entry>` in the feed, the k-th from the k-th entry. */
  function ParseArxiv(raw: string): (r: seq<Paper>)
    ensures |r| == Count(raw, EntryTag)
    ensures forall k :: 0 <= k < |r| ==> r[k] == ParseEntry(Entries(raw)[k])
  {
    ParseEntries(Entries(raw))
  }

  /** `searchArxiv` once the HTTP request has answered: any failure gives
      no papers. */
  function SearchArxiv(response: Result<string>): (r: seq<Paper>)
    ensures response.Err? ==> r == []
    ensures response.Ok? ==> r == ParseArxiv(response.value)
    ensures response.Ok? ==> |r| == Count(response.value, EntryTag)
    ensures forall k :: 0 <= k < |r| ==> |r[k].summary| <= SummaryLimit
  {
    match response
    case Ok(raw) => ParseArxiv(raw)
    case Err(_) => []
  }

  function ProjectRepo(item: RepoItem): Repo {
    Repo(item.fullName, item.description, item.stargazersCount, item.htmlUrl)
  }

  /** `items.map(repo => ({name, description, stars, url}))`. */
  function ProjectRepos(items: seq<RepoItem>): (r: seq<Repo>)
    ensures |r| == |items|
    ensures forall k :: 0 <= k < |items| ==>
      r[k] == Repo(items[k].fullName, items[k].description, items[k].stargazersCount, items[k].htmlUrl)
  {
    if items == [] then [] else [ProjectRepo(items[0])] + ProjectRepos(items[1..])
  }

  /** The projection works item by item: projecting a concatenation
      concatenates the projections. */
  lemma {:induction false} ProjectReposAppend(a: seq<RepoItem>, b: seq<RepoItem>)
    ensures ProjectRepos(a + b) == ProjectRepos(a) + ProjectRepos(b)
  {
    if a != [] {
      assert (a + b)[1..] == a[1..] + b;
      ProjectReposAppend(a[1..], b);
    }
  }

  /** `searchGitHub` once the HTTP request has answered: any failure gives
      no repositories. */
  function SearchGitHub(response: Result<seq<RepoItem>>): (r: seq<Repo>)
    ensures response.Err? ==> r == []
    ensures response.Ok? ==> r == ProjectRepos(response.value)
    ensures response.Ok? ==> |r| == |response.value|
  {
    match response
    case Ok(items) => ProjectRepos(items)
    case Err(_) => []
  }
}
