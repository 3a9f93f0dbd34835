/** The enrichment service: fetching files of a GitHub repository through the cache,
    assembling them into the context of a briefing card, saving the card to the Armory,
    impact analysis with retries and a fallback record, and README summaries. The HTTP
    client and the language-model programs are functions given to the operations. */
module Enrichment {
  import opened Wrappers
  import opened Text
  import opened Json
  import opened Cache
  import opened Armory

  // ---- fetch_github_file_content ----

  /** What client.get(url) gives: a response, or an httpx.RequestError. */
  datatype HttpReply = Response(status: int, body: string) | RequestError

  type Http = string -> HttpReply

  predicate IsOk(reply: HttpReply) {
    reply.Response? && reply.status == 200
  }

  const GithubPrefix := "https://github.com/"
  const RawHost := "https://raw.githubusercontent.com/"
  const Branches: seq<string> := ["main", "master", "develop"]
  const FilePrefix := "github_file"

  /** repo_url.replace("https://github.com/", "") */
  function RepoPath(url: string): string {
    ReplaceAll(url, GithubPrefix, "")
  }

  function RawUrl(path: string, branch: string, file: string): string {
    RawHost + path + "/" + branch + "/" + file
  }

  /** The cache payload of a file request. */
  function FileRequest(url: string, file: string): Json {
    JObj([("repo_url", JStr(url)), ("file_path", JStr(file))])
  }

  /** cached.get(key) for a cached dict; a value that is not text reads as None. */
  function CachedText(cached: Json, key: string): Option<string> {
    match Get(cached, key)
    case Some(JStr(s)) => Some(s)
    case _ => None
  }

  /** The branches tried in order: the body of the first raw URL that answers 200, and
      the raw URLs requested up to and including it. */
  function TryBranches(http: Http, path: string, file: string, branches: seq<string>): (r: (Option<string>, seq<string>))
    decreases |branches|
  {
    if |branches| == 0 then (None, [])
    else
      var u := RawUrl(path, branches[0], file);
      if IsOk(http(u)) then (Some(http(u).body), [u])
      else
        var rest := TryBranches(http, path, file, branches[1..]);
        (rest.0, [u] + rest.1)
  }

  /** The branches are requested in order and no further than the first that answers
      200, whose body is the content; when none does, every branch was requested. */
  lemma {:induction false} TryBranchesMeaning(http: Http, path: string, file: string, branches: seq<string>)
    ensures var r := TryBranches(http, path, file, branches);
      && |r.1| <= |branches|
      && (forall j :: 0 <= j < |r.1| ==> r.1[j] == RawUrl(path, branches[j], file))
      && (r.0.None? ==> |r.1| == |branches|)
      && (r.0.None? ==> forall j :: 0 <= j < |branches| ==> !IsOk(http(RawUrl(path, branches[j], file))))
      && (r.0.Some? ==> |r.1| > 0 && http(r.1[|r.1| - 1]) == Response(200, r.0.value))
      && (r.0.Some? ==> forall j :: 0 <= j < |r.1| - 1 ==> !IsOk(http(r.1[j])))
    decreases |branches|
  {
    if |branches| > 0 {
      var u := RawUrl(path, branches[0], file);
      if !IsOk(http(u)) {
        TryBranchesMeaning(http, path, file, branches[1..]);
        var rest := TryBranches(http, path, file, branches[1..]);
        var r := TryBranches(http, path, file, branches);
        assert r == (rest.0, [u] + rest.1);
        forall j | 1 <= j < |r.1|
          ensures r.1[j] == RawUrl(path, branches[j], file)
        {
          assert r.1[j] == rest.1[j - 1];
          assert branches[1..][j - 1] == branches[j];
        }
        if rest.0.None? {
          forall j | 1 <= j < |branches|
            ensures !IsOk(http(RawUrl(path, branches[j], file)))
          {
            assert branches[1..][j - 1] == branches[j];
          }
        }
      }
    }
  }

  lemma TryBranchesStep(http: Http, path: string, file: string, branches: seq<string>)
    requires |branches| > 0
    ensures var u := RawUrl(path, branches[0], file);
      TryBranches(http, path, file, branches) ==
        if IsOk(http(u)) then (Some(http(u).body), [u])
        else (TryBranches(http, path, file, branches[1..]).0, [u] + TryBranches(http, path, file, branches[1..]).1)
  {
  }

  /** A cached value that the callers' walrus test accepts. */
  predicate IsHit(hit: Option<Json>) {
    hit.Some? && Truthy(hit.value)
  }

  /** What fetch_github_file_content returns, given what the cache holds for the request. */
  function FetchResult(hit: Option<Json>, http: Http, url: string, file: string): Option<string> {
    if IsHit(hit) then CachedText(hit.value, "content")
    else TryBranches(http, RepoPath(url), file, Branches).0
  }

  /** The loop over the branches: each raw URL is requested in turn until one answers 200. */
  method TryEachBranch(http: Http, path: string, file: string) returns (content: Option<string>, requested: seq<string>)
    ensures (content, requested) == TryBranches(http, path, file, Branches)
  {
    requested := [];
    var i := 0;
    assert Branches[0..] == Branches;
    ghost var all := TryBranches(http, path, file, Branches);
    ghost var rest := all;
    assert requested + rest.1 == rest.1;
    while i < |Branches|
      invariant 0 <= i <= |Branches|
      invariant rest == TryBranches(http, path, file, Branches[i..])
      invariant all == (rest.0, requested + rest.1)
    {
      var u := RawUrl(path, Branches[i], file);
      TryBranchesStep(http, path, file, Branches[i..]);
      assert Branches[i..][1..] == Branches[i + 1..];
      var reply := http(u);
      if IsOk(reply) {
        assert rest == (Some(reply.body), [u]);
        return Some(reply.body), requested + [u];
      }
      var next := TryBranches(http, path, file, Branches[i + 1..]);
      assert rest == (next.0, [u] + next.1);
      assert requested + ([u] + next.1) == (requested + [u]) + next.1;
      requested := requested + [u];
      rest := next;
      i := i + 1;
    }
    assert rest == (None, []);
    assert requested + [] == requested;
    content := None;
  }

  method FetchGithubFileContent(cache: CacheManager, http: Http, url: string, file: string)
    returns (content: Option<string>, requested: seq<string>)
    requires cache.Valid()
    modifies cache.Footprint()
    ensures content == FetchResult(old(cache.Peek(FileRequest(url, file), FilePrefix)), http, url, file)
    ensures IsHit(old(cache.Peek(FileRequest(url, file), FilePrefix))) ==>
      requested == [] && unchanged(cache.Footprint())
    ensures !IsHit(old(cache.Peek(FileRequest(url, file), FilePrefix))) ==>
      requested == TryBranches(http, RepoPath(url), file, Branches).1
    ensures !IsHit(old(cache.Peek(FileRequest(url, file), FilePrefix))) && content.Some? ==>
      Saved(cache, FileRequest(url, file), FilePrefix, JObj([("content", JStr(content.value))]))
    ensures !IsHit(old(cache.Peek(FileRequest(url, file), FilePrefix))) && content.None? ==>
      unchanged(cache.Footprint())
    ensures OtherKeysKept(cache, cache.key(FileRequest(url, file), FilePrefix))
  {
    var data := FileRequest(url, file);
    var cached := cache.GetCachedResponse(data, FilePrefix);
    if cached.Some? && Truthy(cached.value) {
      return CachedText(cached.value, "content"), [];
    }
    content, requested := TryEachBranch(http, RepoPath(url), file);
    if content.Some? {
      cache.SaveToCache(data, JObj([("content", JStr(content.value))]), FilePrefix, DefaultTtl);
    }
  }

  // ---- enrich_repo ----

  /** The files fetched for a briefing card, in this order. */
  const ContextFiles: seq<string> := [
    "README.md", "readme.md", "README.rst",
    "requirements.txt", "pyproject.toml",
    "package.json", "pom.xml", "build.gradle",
    "Dockerfile", "docker-compose.yml", "Cargo.toml"
  ]

  const MaxContextLength := 8000

  /** repo_url.split('/')[-1] */
  function RepoName(url: string): (r: string)
    ensures '/' !in r
  {
    var parts := Split(url, '/');
    parts[|parts| - 1]
  }

  /** A fetched text that counts as found: not None and not empty. */
  predicate Found(c: Option<string>) {
    c.Some? && c.value != ""
  }

  /** The pieces of the context's header and of each file's section. */
  const RepositoryLabel := "Repository: "
  const UrlLabel := "\nURL: "
  const SectionOpen := "--- Content of "
  const SectionClose := " ---\n"
  const BlankLine := "\n\n"

  function Header(url: string): string {
    RepositoryLabel + RepoName(url) + UrlLabel + url + BlankLine
  }

  function Section(file: string, text: string): string {
    SectionOpen + file + SectionClose + text + BlankLine
  }

  /** The sections of the found files, in file order. */
  function Sections(files: seq<string>, contents: seq<Option<string>>): string
    requires |files| == |contents|
  {
    SectionsUpTo(files, contents, |files|)
  }

  /** The sections of the first k files. */
  function SectionsUpTo(files: seq<string>, contents: seq<Option<string>>, k: nat): string
    requires |files| == |contents| && k <= |files|
    decreases k
  {
    if k == 0 then "" else SectionsUpTo(files, contents, k - 1) + SectionOf(files[k - 1], contents[k - 1])
  }

  /** The section a file contributes: its heading and text when found, else nothing. */
  function SectionOf(file: string, content: Option<string>): string {
    if Found(content) then Section(file, content.value) else ""
  }

  /** The files that were not found, in file order. */
  function Missing(files: seq<string>, contents: seq<Option<string>>): seq<string>
    requires |files| == |contents|
  {
    MissingUpTo(files, contents, |files|)
  }

  /** The missing files among the first k. */
  function MissingUpTo(files: seq<string>, contents: seq<Option<string>>, k: nat): seq<string>
    requires |files| == |contents| && k <= |files|
    decreases k
  {
    if k == 0 then [] else MissingUpTo(files, contents, k - 1) + MissingOf(files[k - 1], contents[k - 1])
  }

  /** A file that was not found is listed once; a found one is not. */
  function MissingOf(file: string, content: Option<string>): seq<string> {
    if Found(content) then [] else [file]
  }

  /** A file is listed as missing exactly when its content was not found. */
  lemma MissingExactly(files: seq<string>, contents: seq<Option<string>>, i: nat)
    requires |files| == |contents| && i < |files|
    requires forall a, b :: 0 <= a < b < |files| ==> files[a] != files[b]
    ensures files[i] in Missing(files, contents) <==> !Found(contents[i])
  {
    MissingUpToExactly(files, contents, |files|, i);
  }

  lemma {:induction false} MissingUpToExactly(files: seq<string>, contents: seq<Option<string>>, k: nat, i: nat)
    requires |files| == |contents| && i < k <= |files|
    requires forall a, b :: 0 <= a < b < |files| ==> files[a] != files[b]
    ensures files[i] in MissingUpTo(files, contents, k) <==> !Found(contents[i])
    decreases k
  {
    if i < k - 1 {
      MissingUpToExactly(files, contents, k - 1, i);
      assert files[i] != files[k - 1];
    } else {
      forall j | 0 <= j < k - 1
        ensures files[j] != files[i]
      {
        assert j < i;
      }
      MissingOnlyFrom(files, contents, k - 1, files[i]);
    }
  }

  /** Only the first k files can be missing among the first k. */
  lemma {:induction false} MissingOnlyFrom(files: seq<string>, contents: seq<Option<string>>, k: nat, f: string)
    requires |files| == |contents| && k <= |files|
    requires forall j :: 0 <= j < k ==> files[j] != f
    ensures f !in MissingUpTo(files, contents, k)
    decreases k
  {
    if k > 0 {
      MissingOnlyFrom(files, contents, k - 1, f);
    }
  }

  /** The sections of a prefix of the files begin the sections of a longer one. */
  lemma {:induction false} SectionsExtend(files: seq<string>, contents: seq<Option<string>>, i: nat, k: nat)
    requires |files| == |contents| && i <= k <= |files|
    ensures StartsWith(SectionsUpTo(files, contents, k), SectionsUpTo(files, contents, i))
    decreases k - i
  {
    if i < k {
      SectionsExtend(files, contents, i, k - 1);
      StartsWithExtend(SectionsUpTo(files, contents, k - 1), SectionOf(files[k - 1], contents[k - 1]),
        SectionsUpTo(files, contents, i));
    } else {
      var sections := SectionsUpTo(files, contents, i);
      assert sections[..|sections|] == sections;
    }
  }

  /** A file that was found contributes its whole section to the context. */
  lemma FoundFileInSections(files: seq<string>, contents: seq<Option<string>>, i: nat)
    requires |files| == |contents| && i < |files| && Found(contents[i])
    ensures Contains(Sections(files, contents), Section(files[i], contents[i].value))
  {
    var before := SectionsUpTo(files, contents, i);
    var pat := Section(files[i], contents[i].value);
    var all := Sections(files, contents);
    SectionsExtend(files, contents, i + 1, |files|);
    assert SectionsUpTo(files, contents, i + 1) == before + pat;
    assert all[..|before| + |pat|] == before + pat;
    assert all[|before|..|before| + |pat|] == (before + pat)[|before|..];
    assert (before + pat)[|before|..] == pat;
    ContainsAt(all, pat, |before|);
  }

  /** repo_context[:n] when it is longer than n. */
  function Truncate(s: string, n: nat): (r: string)
    ensures |r| == if |s| > n then n else |s|
    ensures StartsWith(s, r)
  {
    if |s| > n then s[..n] else s
  }

  /** The loop that appends the found files' sections and collects the missing ones. */
  method AssembleContext(url: string, files: seq<string>, contents: seq<Option<string>>)
    returns (context: string, missing: seq<string>)
    requires |files| == |contents|
    ensures context == Header(url) + Sections(files, contents)
    ensures missing == Missing(files, contents)
  {
    context := Header(url);
    missing := [];
    for i := 0 to |files|
      invariant context == Header(url) + SectionsUpTo(files, contents, i)
      invariant missing == MissingUpTo(files, contents, i)
    {
      ContextStep(Header(url), files, contents, i);
      context, missing := AddFile(context, missing, files[i], contents[i]);
    }
  }

  lemma ContextStep(head: string, files: seq<string>, contents: seq<Option<string>>, i: nat)
    requires |files| == |contents| && i < |files|
    ensures head + SectionsUpTo(files, contents, i + 1) ==
      (head + SectionsUpTo(files, contents, i)) + SectionOf(files[i], contents[i])
    ensures MissingUpTo(files, contents, i + 1) == MissingUpTo(files, contents, i) + MissingOf(files[i], contents[i])
  {
  }

  /** One turn of the loop: a found file's section is appended, any other file is
      listed as missing. */
  method AddFile(context: string, missing: seq<string>, file: string, content: Option<string>)
    returns (context': string, missing': seq<string>)
    ensures context' == context + SectionOf(file, content)
    ensures missing' == missing + MissingOf(file, content)
  {
    if Found(content) {
      context' := context + Section(file, content.value);
      missing' := missing;
    } else {
      context' := context;
      missing' := missing + [file];
    }
  }

  /** The briefing card the language model fills in. */
  datatype BriefingCard = BriefingCard(
    repoName: string,
    url: string,
    oneLiner: string,
    primaryLanguage: string,
    keyDependencies: Option<seq<string>>,
    installationMethod: Option<string>,
    primaryUseCase: string,
    integrationPoints: string,
    capabilityTags: seq<string>)

  /** briefing_card.dict(): the fields in declaration order. */
  function CardFields(c: BriefingCard): seq<Field> {
    [ ("repo_name", JStr(c.repoName)),
      ("url", JStr(c.url)),
      ("one_liner", JStr(c.oneLiner)),
      ("primary_language", JStr(c.primaryLanguage)),
      ("key_dependencies", match c.keyDependencies case Some(ds) => StrList(ds) case None => JNull),
      ("installation_method", match c.installationMethod case Some(m) => JStr(m) case None => JNull),
      ("primary_use_case", JStr(c.primaryUseCase)),
      ("integration_points", JStr(c.integrationPoints)),
      ("capability_tags", StrList(c.capabilityTags)) ]
  }

  /** The saved record: the card with its url replaced by the requested URL. */
  function CardRecord(c: BriefingCard, url: string): Json {
    JObj(Put(CardFields(c), "url", JStr(url)))
  }

  /** The record keeps the card's fields in their order, with only the url replaced. */
  lemma CardRecordShape(c: BriefingCard, url: string)
    ensures CardRecord(c, url).fields == CardFields(c)[1 := ("url", JStr(url))]
    ensures Get(CardRecord(c, url), "url") == Some(JStr(url))
  {
    assert CardFields(c)[1].0 == "url";
    PutMeaning(CardFields(c), "url", JStr(url));
  }

  /** The Armory file name of a repository: '/' and ':' become '_', then ".json". */
  function RecordName(url: string): (r: string)
    ensures '/' !in r && ':' !in r
    ensures IsJsonName(r)
  {
    var r := ReplaceChar(ReplaceChar(url, '/', '_'), ':', '_') + ".json";
    assert r[|r| - 5..] == ".json";
    r
  }

  /** A saved briefing card is found by delete_repo under its URL and contributes a
      document to the next index build, carrying the URL and the card's repo name. */
  lemma EnrichedRepoIsIndexed(c: BriefingCard, url: string)
    ensures RecordsUrl((RecordName(url), Parsed(CardRecord(c, url))), url)
    ensures FileDocument((RecordName(url), Parsed(CardRecord(c, url)))).Some?
    ensures FileDocument((RecordName(url), Parsed(CardRecord(c, url)))).value.url == JStr(url)
    ensures FileDocument((RecordName(url), Parsed(CardRecord(c, url)))).value.repoName == JStr(c.repoName)
  {
    CardRecordShape(c, url);
    CardRecordNames(c, url);
    CardRecordTags(c, url);
    StrListJoins(c.capabilityTags, ", ");
  }

  /** The record carries the card's repo name. */
  lemma CardRecordNames(c: BriefingCard, url: string)
    ensures Get(CardRecord(c, url), "repo_name") == Some(JStr(c.repoName))
  {
    CardRecordShape(c, url);
    LookupUnique(CardRecord(c, url).fields, 0);
  }

  /** The record carries the card's capability tags as a list of strings. */
  lemma CardRecordTags(c: BriefingCard, url: string)
    ensures Get(CardRecord(c, url), "capability_tags") == Some(StrList(c.capabilityTags))
  {
    CardRecordShape(c, url);
    LookupUnique(CardRecord(c, url).fields, 8);
  }

  /** In a field list whose key at i appears nowhere else, the key looks up its value. */
  lemma {:induction false} LookupUnique(fields: seq<Field>, i: nat)
    requires i < |fields|
    requires forall j :: 0 <= j < |fields| && j != i ==> fields[j].0 != fields[i].0
    ensures Lookup(fields, fields[i].0) == Some(fields[i].1)
    decreases |fields|
  {
    var n := |fields| - 1;
    if i < n {
      forall j | 0 <= j < n && j != i
        ensures fields[..n][j].0 != fields[..n][i].0
      {
        assert fields[..n][j] == fields[j];
      }
      LookupUnique(fields[..n], i);
    }
  }

  /** The card program: the card for a context, or None when it raises. */
  type Briefer = string -> Option<BriefingCard>

  datatype EnrichError = BriefingFailed

  /** No two context files' requests share a cache key. */
  predicate FileKeysDistinct(cache: CacheManager, url: string) {
    forall a, b :: 0 <= a < b < |ContextFiles| ==>
      cache.key(FileRequest(url, ContextFiles[a]), FilePrefix) !=
      cache.key(FileRequest(url, ContextFiles[b]), FilePrefix)
  }

  /** The gathered fetches of the context files, taken one after the other. Each fetch
      sees the cache as it was before all of them, unless two requests share a key. */
  method FetchContextFiles(cache: CacheManager, http: Http, url: string) returns (contents: seq<Option<string>>)
    requires cache.Valid()
    modifies cache.Footprint()
    ensures |contents| == |ContextFiles|
    ensures FileKeysDistinct(cache, url) ==>
      forall i :: 0 <= i < |ContextFiles| ==>
        contents[i] == FetchResult(old(cache.Peek(FileRequest(url, ContextFiles[i]), FilePrefix)), http, url, ContextFiles[i])
  {
    contents := [];
    for i := 0 to |ContextFiles|
      invariant |contents| == i
      invariant FileKeysDistinct(cache, url) ==>
        forall j :: 0 <= j < i ==>
          contents[j] == FetchResult(old(cache.Peek(FileRequest(url, ContextFiles[j]), FilePrefix)), http, url, ContextFiles[j])
      invariant FileKeysDistinct(cache, url) ==>
        forall j :: i <= j < |ContextFiles| ==>
          cache.Peek(FileRequest(url, ContextFiles[j]), FilePrefix) == old(cache.Peek(FileRequest(url, ContextFiles[j]), FilePrefix))
    {
      var c := FetchContextFile(cache, http, url, i);
      contents := contents + [c];
    }
  }

  /** One step of the gathered fetches: the i-th file's fetch, which leaves the cache
      entries of the later files as they were. */
  method FetchContextFile(cache: CacheManager, http: Http, url: string, i: nat) returns (c: Option<string>)
    requires cache.Valid() && i < |ContextFiles|
    modifies cache.Footprint()
    ensures c == FetchResult(old(cache.Peek(FileRequest(url, ContextFiles[i]), FilePrefix)), http, url, ContextFiles[i])
    ensures FileKeysDistinct(cache, url) ==>
      forall j :: i < j < |ContextFiles| ==>
        cache.Peek(FileRequest(url, ContextFiles[j]), FilePrefix) == old(cache.Peek(FileRequest(url, ContextFiles[j]), FilePrefix))
  {
    var file := ContextFiles[i];
    var requested;
    c, requested := FetchGithubFileContent(cache, http, url, file);
    if FileKeysDistinct(cache, url) {
      forall j | i < j < |ContextFiles|
        ensures cache.Peek(FileRequest(url, ContextFiles[j]), FilePrefix) ==
                old(cache.Peek(FileRequest(url, ContextFiles[j]), FilePrefix))
      {
        assert cache.key(FileRequest(url, file), FilePrefix) != cache.key(FileRequest(url, ContextFiles[j]), FilePrefix);
      }
    }
  }

  /** enrich_repo. */
  method EnrichRepo(cache: CacheManager, http: Http, armory: ArmoryStore, brief: Briefer, url: string)
    returns (r: Result<Json, EnrichError>, contents: seq<Option<string>>)
    requires cache.Valid()
    modifies cache.Footprint(), armory
    ensures |contents| == |ContextFiles|
    ensures FileKeysDistinct(cache, url) ==>
      forall i :: 0 <= i < |ContextFiles| ==>
        contents[i] == FetchResult(old(cache.Peek(FileRequest(url, ContextFiles[i]), FilePrefix)), http, url, ContextFiles[i])
    ensures brief(Truncate(Header(url) + Sections(ContextFiles, contents), MaxContextLength)).None? ==>
      r == Err(BriefingFailed) && unchanged(armory)
    ensures brief(Truncate(Header(url) + Sections(ContextFiles, contents), MaxContextLength)).Some? ==>
      var card := brief(Truncate(Header(url) + Sections(ContextFiles, contents), MaxContextLength)).value;
      && r == Ok(CardRecord(card, url))
      && armory.present
      && armory.files == WithFile(old(armory.files), RecordName(url), Parsed(CardRecord(card, url)))
      && armory.index == old(armory.index)
      && armory.added == old(armory.added) + [CardRecord(card, url)]
  {
    contents := FetchContextFiles(cache, http, url);
    var context, _ := AssembleContext(url, ContextFiles, contents);
    context := Truncate(context, MaxContextLength);
    match brief(context)
    case None =>
      r := Err(BriefingFailed);
    case Some(card) =>
      var record := CardRecord(card, url);
      armory.WriteRecord(RecordName(url), record);
      armory.AddRepoToIndex(record);
      r := Ok(record);
  }

  /** fetch_readme_content: README.md, else readme.md, else "". */
  predicate ReadmeKeysDistinct(cache: CacheManager, url: string) {
    cache.key(FileRequest(url, "README.md"), FilePrefix) !=
    cache.key(FileRequest(url, "readme.md"), FilePrefix)
  }

  /** `a or b or ""` over two fetched texts. */
  function FirstFound(a: Option<string>, b: Option<string>): (r: string)
    ensures Found(a) ==> r == a.value
    ensures !Found(a) && Found(b) ==> r == b.value
    ensures !Found(a) && !Found(b) ==> r == ""
  {
    if Found(a) then a.value else if Found(b) then b.value else ""
  }

  method FetchReadmeContent(cache: CacheManager, http: Http, url: string) returns (readme: string)
    requires cache.Valid()
    modifies cache.Footprint()
    ensures ReadmeKeysDistinct(cache, url) ==>
      readme == FirstFound(
        FetchResult(old(cache.Peek(FileRequest(url, "README.md"), FilePrefix)), http, url, "README.md"),
        FetchResult(old(cache.Peek(FileRequest(url, "readme.md"), FilePrefix)), http, url, "readme.md"))
    ensures OtherKeysKeptBoth(cache, url)
  {
    var first, _ := FetchGithubFileContent(cache, http, url, "README.md");
    if Found(first) {
      return first.value;
    }
    var second, _ := FetchGithubFileContent(cache, http, url, "readme.md");
    readme := FirstFound(first, second);
  }

  /** Only the two README requests' cache entries may have changed. */
  twostate predicate OtherKeysKeptBoth(cache: CacheManager, url: string)
    reads cache.Footprint()
  {
    forall d: Json, p: string ::
      cache.key(d, p) != cache.key(FileRequest(url, "README.md"), FilePrefix) &&
      cache.key(d, p) != cache.key(FileRequest(url, "readme.md"), FilePrefix) ==>
      cache.Peek(d, p) == old(cache.Peek(d, p))
  }

  // ---- the retried impact-analysis call ----

  /** How one attempt of the program fails. */
  datatype LlmFailure = ReadTimeout | OtherFailure(message: string)

  /** How the retried call fails: an error it does not retry, or the attempts ran out. */
  datatype CallError = Raised(message: string) | AttemptsExhausted

  const MaxAttempts := 3

  /** wait_exponential(multiplier=1, min=4, max=10) before attempt k + 1. */
  function Backoff(k: nat): (w: int)
    requires k >= 1
    ensures 4 <= w <= 10
  {
    var e := Pow2(k - 1);
    if e < 4 then 4 else if e > 10 then 10 else e
  }

  function Pow2(n: nat): nat {
    if n == 0 then 1 else 2 * Pow2(n - 1)
  }

  /** The outcome of the retried call from attempt k on, and the number of attempts. */
  function Retried<T>(attempt: nat -> Result<T, LlmFailure>, k: nat): (r: (Result<T, CallError>, nat))
    requires 1 <= k <= MaxAttempts
    ensures k <= r.1 <= MaxAttempts
    ensures r.0.Ok? ==> attempt(r.1).Ok? && r.0.value == attempt(r.1).value
    ensures forall j :: k <= j < r.1 ==> attempt(j) == Err(ReadTimeout)
    ensures r.0 == Err(AttemptsExhausted) <==> r.1 == MaxAttempts && attempt(MaxAttempts) == Err(ReadTimeout)
    decreases MaxAttempts - k
  {
    match attempt(k)
    case Ok(v) => (Ok(v), k)
    case Err(OtherFailure(m)) => (Err(Raised(m)), k)
    case Err(ReadTimeout) =>
      if k == MaxAttempts then (Err(AttemptsExhausted), k) else Retried(attempt, k + 1)
  }

  /** The tenacity-wrapped call: retries only on ReadTimeout, at most three attempts,
      with the exponential waits between them. */
  method CallWithRetry<T>(attempt: nat -> Result<T, LlmFailure>) returns (r: Result<T, CallError>, waits: seq<int>)
    ensures r == Retried(attempt, 1).0
    ensures |waits| == Retried(attempt, 1).1 - 1
    ensures forall i :: 0 <= i < |waits| ==> waits[i] == Backoff(i + 1)
  {
    var k := 1;
    waits := [];
    while true
      invariant 1 <= k <= MaxAttempts
      invariant Retried(attempt, 1) == Retried(attempt, k)
      invariant |waits| == k - 1
      invariant forall i :: 0 <= i < |waits| ==> waits[i] == Backoff(i + 1)
      decreases MaxAttempts - k
    {
      match attempt(k)
      case Ok(v) =>
        return Ok(v), waits;
      case Err(OtherFailure(m)) =>
        return Err(Raised(m)), waits;
      case Err(ReadTimeout) =>
        if k == MaxAttempts {
          return Err(AttemptsExhausted), waits;
        }
        waits := waits + [Backoff(k)];
        k := k + 1;
    }
  }

  /** Every attempt timing out gives up after exactly three attempts, waiting 4 seconds
      before each retry. */
  lemma AlwaysTimingOut<T>(attempt: nat -> Result<T, LlmFailure>)
    requires forall k :: 1 <= k <= MaxAttempts ==> attempt(k) == Err(ReadTimeout)
    ensures Retried(attempt, 1) == (Err(AttemptsExhausted), MaxAttempts)
    ensures Backoff(1) == 4 && Backoff(2) == 4
  {
  }

  /** An error other than a read timeout is not retried. */
  lemma OtherErrorsNotRetried<T>(attempt: nat -> Result<T, LlmFailure>, m: string)
    requires attempt(1) == Err(OtherFailure(m))
    ensures Retried(attempt, 1) == (Err(Raised(m)), 1)
  {
  }

  /** str(e) of the error the fallback reports. The text tenacity gives a RetryError
      (which names a future object) is abbreviated to its class name. */
  function ErrorText(e: CallError): string {
    match e
    case Raised(m) => m
    case AttemptsExhausted => "RetryError"
  }

  // ---- run_impact_analysis_for_repo ----

  const ImpactPrefix := "impact_analysis"
  const MaxStructureLength := 1000

  function ImpactRequestData(goal: string, structure: Json, url: string): Json {
    JObj([("goal", JStr(goal)), ("project_structure", structure), ("repo_url", JStr(url))])
  }

  /** What the analysis program is asked. */
  datatype ImpactRequest = ImpactRequest(goal: string, structure: string, readme: string, url: string)

  /** The analysis program's k-th attempt: analysis.dict(), or how it failed. */
  type Analyst = (ImpactRequest, nat) -> Result<seq<Field>, LlmFailure>

  datatype ImpactError =
    | NoArmoryDocument   // ValueError("Failed to fetch Armory document for impact analysis.")
    | NotJoinable        // ', '.join raises TypeError on the metadata

  /** The summary of an Armory document's metadata; None when a list does not join. */
  function ConciseReadme(md: Json): (r: Option<string>)
    ensures r.Some? <==>
      JoinStrings(GetOr(md, "key_dependencies", JArr([])), ", ").Some? &&
      JoinStrings(GetOr(md, "capability_tags", JArr([])), ", ").Some?
    ensures r.Some? ==> StartsWith(r.value, RepoNameLabel)
  {
    var deps := JoinStrings(GetOr(md, "key_dependencies", JArr([])), ", ");
    var tags := JoinStrings(GetOr(md, "capability_tags", JArr([])), ", ");
    if deps.None? || tags.None? then None
    else
      var rest := PyStr(GetOr(md, "repo_name", JStr(""))) +
        OneLinerLine + PyStr(GetOr(md, "one_liner", JStr(""))) +
        UseCaseLine + PyStr(GetOr(md, "primary_use_case", JStr(""))) +
        DependenciesLine + deps.value +
        TagsLine + tags.value;
      StartsWithConcat(RepoNameLabel, rest);
      Some(RepoNameLabel + rest)
  }

  /** The labels of the lines of the concise summary. */
  const RepoNameLabel := "Repo Name: "
  const OneLinerLine := "\nOne-Liner: "
  const UseCaseLine := "\nPrimary Use Case: "
  const DependenciesLine := "\nKey Dependencies: "
  const TagsLine := "\nCapability Tags: "

  /** The record of a successful analysis. */
  function AnalysisRecord(analysis: seq<Field>, url: string, md: Json): Json {
    JObj(Put(Put(analysis, "url", JStr(url)), "repo_name", GetOr(md, "repo_name", JNull)))
  }

  /** The record written when the analysis fails. */
  function FallbackRecord(md: Json, url: string, error: string): Json {
    JObj([ ("repo_name", GetOr(md, "repo_name", JStr(RepoName(url)))),
           ("url", JStr(url)),
           ("integration_cost", JStr("Unknown")),
           ("integration_justification", JStr("LLM analysis failed: " + error)),
           ("capability_boost", JStr("Unknown")),
           ("capability_justification", JStr("LLM analysis failed: " + error)) ])
  }

  /** The success record names the analysed URL and carries the metadata's repo name. */
  lemma AnalysisRecordNamesUrl(analysis: seq<Field>, md: Json, url: string)
    ensures Get(AnalysisRecord(analysis, url, md), "url") == Some(JStr(url))
    ensures Get(AnalysisRecord(analysis, url, md), "repo_name") == Some(GetOr(md, "repo_name", JNull))
  {
    var withUrl := Put(analysis, "url", JStr(url));
    PutMeaning(analysis, "url", JStr(url));
    PutMeaning(withUrl, "repo_name", GetOr(md, "repo_name", JNull));
  }

  /** The fallback record names the analysed URL. */
  lemma FallbackRecordNamesUrl(md: Json, url: string, error: string)
    ensures Get(FallbackRecord(md, url, error), "url") == Some(JStr(url))
  {
    LookupUnique(FallbackRecord(md, url, error).fields, 1);
  }

  /** The fallback record rates the integration cost "Unknown". */
  lemma FallbackCostUnknown(md: Json, url: string, error: string)
    ensures Get(FallbackRecord(md, url, error), "integration_cost") == Some(JStr("Unknown"))
  {
    LookupUnique(FallbackRecord(md, url, error).fields, 2);
  }

  /** The fallback record rates the capability boost "Unknown". */
  lemma FallbackBoostUnknown(md: Json, url: string, error: string)
    ensures Get(FallbackRecord(md, url, error), "capability_boost") == Some(JStr("Unknown"))
  {
    LookupUnique(FallbackRecord(md, url, error).fields, 4);
  }

  method RunImpactAnalysis(cache: CacheManager, dumpsIndented: Json -> string, goal: string, structure: Json,
                           url: string, metadata: Option<Json>, analyst: Analyst)
    returns (r: Result<Json, ImpactError>)
    requires cache.Valid()
    modifies cache.Footprint()
    ensures IsHit(old(cache.Peek(ImpactRequestData(goal, structure, url), ImpactPrefix))) ==>
      r == Ok(old(cache.Peek(ImpactRequestData(goal, structure, url), ImpactPrefix)).value) && unchanged(cache.Footprint())
    ensures !IsHit(old(cache.Peek(ImpactRequestData(goal, structure, url), ImpactPrefix))) && metadata.None? ==>
      r == Err(NoArmoryDocument) && unchanged(cache.Footprint())
    ensures !IsHit(old(cache.Peek(ImpactRequestData(goal, structure, url), ImpactPrefix))) && metadata.Some? &&
            ConciseReadme(metadata.value).None? ==>
      r == Err(NotJoinable) && unchanged(cache.Footprint())
    ensures !IsHit(old(cache.Peek(ImpactRequestData(goal, structure, url), ImpactPrefix))) && metadata.Some? &&
            ConciseReadme(metadata.value).Some? ==>
      var request := ImpactRequest(goal, Truncate(dumpsIndented(structure), MaxStructureLength), ConciseReadme(metadata.value).value, url);
      var outcome := Retried((k: nat) => analyst(request, k), 1).0;
      && r == Ok(if outcome.Ok? then AnalysisRecord(outcome.value, url, metadata.value)
                 else FallbackRecord(metadata.value, url, ErrorText(outcome.error)))
      && Saved(cache, ImpactRequestData(goal, structure, url), ImpactPrefix, r.value)
  {
    var data := ImpactRequestData(goal, structure, url);
    var cached := cache.GetCachedResponse(data, ImpactPrefix);
    if cached.Some? && Truthy(cached.value) {
      return Ok(cached.value);
    }
    if metadata.None? {
      return Err(NoArmoryDocument);
    }
    var md := metadata.value;
    var readme := ConciseReadme(md);
    if readme.None? {
      return Err(NotJoinable);
    }
    var request := ImpactRequest(goal, Truncate(dumpsIndented(structure), MaxStructureLength), readme.value, url);
    var outcome, _ := CallWithRetry((k: nat) => analyst(request, k));
    var record := if outcome.Ok? then AnalysisRecord(outcome.value, url, md)
                  else FallbackRecord(md, url, ErrorText(outcome.error));
    cache.SaveToCache(data, record, ImpactPrefix, DefaultTtl);
    r := Ok(record);
  }

  // ---- get_readme_summary_for_repo ----

  const SummaryPrefix := "readme_summary"

  function SummaryRequest(url: string): Json {
    JObj([("repo_url", JStr(url))])
  }

  /** The summary program: a summary of a README, or None when it raises. */
  type Summarizer = string -> Option<string>

  method GetReadmeSummaryForRepo(cache: CacheManager, http: Http, summarize: Summarizer, url: string)
    returns (summary: Option<string>, ghost readme: string)
    requires cache.Valid()
    modifies cache.Footprint()
    ensures IsHit(old(cache.Peek(SummaryRequest(url), SummaryPrefix))) ==>
      summary == CachedText(old(cache.Peek(SummaryRequest(url), SummaryPrefix)).value, "summary") &&
      unchanged(cache.Footprint())
    ensures !IsHit(old(cache.Peek(SummaryRequest(url), SummaryPrefix))) && ReadmeKeysDistinct(cache, url) ==>
      readme == FirstFound(
        FetchResult(old(cache.Peek(FileRequest(url, "README.md"), FilePrefix)), http, url, "README.md"),
        FetchResult(old(cache.Peek(FileRequest(url, "readme.md"), FilePrefix)), http, url, "readme.md"))
    ensures !IsHit(old(cache.Peek(SummaryRequest(url), SummaryPrefix))) && readme == "" ==> summary == None
    ensures !IsHit(old(cache.Peek(SummaryRequest(url), SummaryPrefix))) && readme != "" ==>
      summary == summarize(Truncate(readme, MaxContextLength))
    ensures !IsHit(old(cache.Peek(SummaryRequest(url), SummaryPrefix))) && summary.Some? && cache.backend.Memory? ==>
      cache.Peek(SummaryRequest(url), SummaryPrefix) == Some(JObj([("summary", JStr(summary.value))]))
  {
    readme := "";
    var data := SummaryRequest(url);
    var cached := cache.GetCachedResponse(data, SummaryPrefix);
    if cached.Some? && Truthy(cached.value) {
      return CachedText(cached.value, "summary"), readme;
    }
    var text := FetchReadmeContent(cache, http, url);
    readme := text;
    if text == "" {
      return None, readme;
    }
    summary := summarize(Truncate(text, MaxContextLength));
    if summary.Some? {
      cache.SaveToCache(data, JObj([("summary", JStr(summary.value))]), SummaryPrefix, DefaultTtl);
    }
  }
}
