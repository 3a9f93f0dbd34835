/** The Armory: a directory of briefing-card JSON files, one per enriched repository,
    and the vector index built from them (build, delete-and-rebuild, query). The
    embedding model and the similarity search are outside the model: the search is a
    function given to the query. */
module Armory {
  import opened Wrappers
  import opened Text
  import opened Json

  const ArmoryPath := "./armory"
  const ArmoryIndexPath := "./armory_index"

  /** A file of the Armory directory as json.load reads it: a value, or an error
      (unreadable or not JSON). */
  datatype Entry = Parsed(data: Json) | Unreadable

  /** A directory entry: its name (as os.listdir gives it) and its content. */
  type ArmoryFile = (string, Entry)

  /** A document handed to the vector index: its text and its two metadata values. */
  datatype Document = Document(text: string, url: Json, repoName: Json)

  /** One search result: the metadata of the matched document and its score. */
  datatype ArmoryHit = ArmoryHit(repoName: Json, url: Json, score: real)

  /** Only names ending in ".json" are read. */
  predicate IsJsonName(name: string) {
    EndsWith(name, ".json")
  }

  /** The labels of the lines of a document's text. */
  const RepoLabel := "Repo: "
  const UseCaseLabel := "\nUse Case: "
  const OneLinerLabel := "\nOne Liner: "
  const TagsLabel := "\nTags: "

  /** The text a record is indexed under. */
  function DocumentText(data: Json, tags: string): (r: string)
    ensures StartsWith(r, RepoLabel)
  {
    var rest := PyStr(GetOr(data, "repo_name", JStr(""))) +
      UseCaseLabel + PyStr(GetOr(data, "primary_use_case", JStr(""))) +
      OneLinerLabel + PyStr(GetOr(data, "one_liner", JStr(""))) +
      TagsLabel + tags;
    StartsWithConcat(RepoLabel, rest);
    RepoLabel + rest
  }

  /** The document of one record; None when building it raises: the record is not a
      dict, or its capability_tags cannot be joined. */
  function DocumentFor(data: Json): (r: Option<Document>)
    ensures r.Some? <==> data.JObj? && JoinStrings(GetOr(data, "capability_tags", JArr([])), ", ").Some?
    ensures r.Some? ==> r.value.url == GetOr(data, "url", JNull)
    ensures r.Some? ==> r.value.repoName == GetOr(data, "repo_name", JNull)
    ensures r.Some? ==> StartsWith(r.value.text, RepoLabel)
  {
    if !data.JObj? then None
    else
      match JoinStrings(GetOr(data, "capability_tags", JArr([])), ", ")
      case None => None
      case Some(tags) =>
        Some(Document(DocumentText(data, tags), GetOr(data, "url", JNull), GetOr(data, "repo_name", JNull)))
  }

  /** The document a directory entry contributes, if any. */
  function FileDocument(f: ArmoryFile): Option<Document> {
    if IsJsonName(f.0) && f.1.Parsed? then DocumentFor(f.1.data) else None
  }

  /** The documents of a directory listing, in listing order; entries that are not
      JSON files or that raise are skipped. */
  function DocumentsOf(files: seq<ArmoryFile>): seq<Document> {
    FlatMap(files, DocumentOf)
  }

  /** The document an entry contributes: none, or its own. */
  function DocumentOf(f: ArmoryFile): seq<Document> {
    match FileDocument(f)
    case Some(d) => [d]
    case None => []
  }

  /** Every indexed document comes from some entry of the listing. */
  lemma DocumentsFromFiles(files: seq<ArmoryFile>, d: Document)
    requires d in DocumentsOf(files)
    ensures exists i :: 0 <= i < |files| && FileDocument(files[i]) == Some(d)
  {
    FlatMapFrom(files, DocumentOf, d);
    var i :| 0 <= i < |files| && d in DocumentOf(files[i]);
    assert FileDocument(files[i]) == Some(d);
  }

  /** Every readable JSON record that yields a document is indexed. */
  lemma FilesToDocuments(files: seq<ArmoryFile>, i: nat)
    requires i < |files| && FileDocument(files[i]).Some?
    ensures FileDocument(files[i]).value in DocumentsOf(files)
  {
    assert FileDocument(files[i]).value in DocumentOf(files[i]);
    FlatMapHas(files, DocumentOf, i, FileDocument(files[i]).value);
  }

  /** The entry records the repository with this URL. */
  predicate RecordsUrl(f: ArmoryFile, url: string) {
    IsJsonName(f.0) && f.1.Parsed? && Get(f.1.data, "url") == Some(JStr(url))
  }

  /** The first entry of the listing that records the URL. */
  function FirstRecord(files: seq<ArmoryFile>, url: string): (r: Option<nat>)
    ensures r.Some? ==> r.value < |files| && RecordsUrl(files[r.value], url)
    ensures r.Some? ==> forall j :: 0 <= j < r.value ==> !RecordsUrl(files[j], url)
    ensures r.None? ==> forall j :: 0 <= j < |files| ==> !RecordsUrl(files[j], url)
    decreases |files|
  {
    if |files| == 0 then None
    else if RecordsUrl(files[0], url) then Some(0)
    else
      match FirstRecord(files[1..], url)
      case None => None
      case Some(k) => Some(k + 1)
  }

  /** The listing with its k-th entry removed. */
  function RemoveAt(files: seq<ArmoryFile>, k: nat): (r: seq<ArmoryFile>)
    requires k < |files|
    ensures |r| == |files| - 1
    ensures forall j :: 0 <= j < k ==> r[j] == files[j]
    ensures forall j :: k <= j < |r| ==> r[j] == files[j + 1]
  {
    files[..k] + files[k + 1..]
  }

  /** The listing after writing a file: an existing file of that name is overwritten
      where it stands, a new one is listed last. */
  function WithFile(files: seq<ArmoryFile>, name: string, entry: Entry): (r: seq<ArmoryFile>)
    ensures (name, entry) in r
    ensures forall i :: 0 <= i < |r| && r[i].0 == name ==> r[i].1 == entry
    ensures forall i :: 0 <= i < |r| && r[i].0 != name ==> r[i] in files
    ensures forall i :: 0 <= i < |files| && files[i].0 != name ==> files[i] in r
    ensures (exists i :: 0 <= i < |files| && files[i].0 == name) ==> |r| == |files|
    ensures (forall i :: 0 <= i < |files| ==> files[i].0 != name) ==> r == files + [(name, entry)]
  {
    if exists i :: 0 <= i < |files| && files[i].0 == name then
      var r := seq(|files|, i requires 0 <= i < |files| => if files[i].0 == name then (name, entry) else files[i]);
      var k :| 0 <= k < |files| && files[k].0 == name;
      assert r[k] == (name, entry);
      assert forall i :: 0 <= i < |files| && files[i].0 != name ==> r[i] == files[i];
      r
    else
      files + [(name, entry)]
  }

  /** The persisted index after build_armory_index as written: nothing happens when
      the directory is missing or yields no document, so an earlier index stays. */
  function BuiltIndex(present: bool, files: seq<ArmoryFile>, previous: Option<seq<Document>>): Option<seq<Document>> {
    if !present || DocumentsOf(files) == [] then previous else Some(DocumentsOf(files))
  }

  /** The persisted index after the corrected rebuild: the directory's documents,
      possibly none, replace whatever was persisted before. */
  function RebuiltIndex(present: bool, files: seq<ArmoryFile>, previous: Option<seq<Document>>): Option<seq<Document>> {
    if !present then previous else Some(DocumentsOf(files))
  }

  /** The search results for the hits of a query, in the order the search gives them. */
  function HitsOf(nodes: seq<(Document, real)>): (r: seq<ArmoryHit>)
    ensures |r| == |nodes|
    ensures forall i :: 0 <= i < |nodes| ==>
      r[i] == ArmoryHit(nodes[i].0.repoName, nodes[i].0.url, nodes[i].1)
  {
    seq(|nodes|, i requires 0 <= i < |nodes| => ArmoryHit(nodes[i].0.repoName, nodes[i].0.url, nodes[i].1))
  }

  /** Reads every JSON entry of the directory and builds its document. */
  method CollectDocuments(files: seq<ArmoryFile>) returns (docs: seq<Document>)
    ensures docs == DocumentsOf(files)
  {
    docs := [];
    for i := 0 to |files|
      invariant docs == FlatMapUpTo(files, DocumentOf, i)
    {
      var contribution := ReadEntry(files[i]);
      docs := docs + contribution;
    }
  }

  /** One turn of the loop: a JSON entry that loads and builds yields its document; any
      other entry, or one whose build raises, yields nothing. */
  method ReadEntry(f: ArmoryFile) returns (contribution: seq<Document>)
    ensures contribution == DocumentOf(f)
  {
    contribution := [];
    if IsJsonName(f.0) && f.1.Parsed? {
      match DocumentFor(f.1.data)
      case Some(d) => contribution := [d];
      case None =>
    }
  }

  /** The similarity search of a loaded index: the hits for a query text and a top-k,
      each a document of the index with its score, or None when it raises. */
  type Search = (seq<Document>, string, int) -> Option<seq<(Document, real)>>

  datatype DeleteError =
    | ArmoryMissing   // os.listdir raises FileNotFoundError
    | NotInArmory     // no record carries the URL: FileNotFoundError

  class ArmoryStore {
    /** os.path.exists(ARMORY_PATH) */
    var present: bool
    /** The directory listing, in os.listdir order. */
    var files: seq<ArmoryFile>
    /** The index persisted at ARMORY_INDEX_PATH, as the documents it was built from;
        None when nothing is persisted there. */
    var index: Option<seq<Document>>
    /** The records handed to add_repo_to_index, whose effect is not part of this model. */
    var added: seq<Json>

    constructor(present: bool, files: seq<ArmoryFile>, index: Option<seq<Document>>)
      ensures this.present == present && this.files == files && this.index == index && added == []
    {
      this.present := present;
      this.files := files;
      this.index := index;
      added := [];
    }

    /** os.makedirs(ARMORY_PATH, exist_ok=True) followed by writing one record. */
    method WriteRecord(name: string, data: Json)
      modifies this
      ensures present && files == WithFile(old(files), name, Parsed(data))
      ensures index == old(index) && added == old(added)
    {
      present := true;
      files := WithFile(files, name, Parsed(data));
    }

    /** add_repo_to_index(record), recorded as a call. */
    method AddRepoToIndex(record: Json)
      modifies this
      ensures added == old(added) + [record]
      ensures present == old(present) && files == old(files) && index == old(index)
    {
      added := added + [record];
    }

    /** build_armory_index as written. */
    method BuildArmoryIndex()
      modifies this
      ensures index == BuiltIndex(present, files, old(index))
      ensures present == old(present) && files == old(files) && added == old(added)
    {
      if !present {
        return;
      }
      var docs := CollectDocuments(files);
      if docs == [] {
        return;
      }
      index := Some(docs);
    }

    /** build_armory_index corrected so that an empty directory persists an empty
        index instead of leaving the previous one in place. */
    method RebuildArmoryIndex()
      modifies this
      ensures index == RebuiltIndex(present, files, old(index))
      ensures present == old(present) && files == old(files) && added == old(added)
    {
      if !present {
        return;
      }
      var docs := CollectDocuments(files);
      index := Some(docs);
    }

    /** delete_repo as written: removes the first record of the URL and runs
        build_armory_index, which keeps the previous index when no document is left. */
    method DeleteRepo(url: string) returns (r: Result<string, DeleteError>)
      modifies this
      ensures !old(present) ==> r == Err(ArmoryMissing)
      ensures old(present) && FirstRecord(old(files), url).None? ==> r == Err(NotInArmory)
      ensures r.Err? ==> files == old(files) && index == old(index)
      ensures r.Ok? <==> old(present) && FirstRecord(old(files), url).Some?
      ensures r.Ok? ==> r.value == url
      ensures r.Ok? ==> files == RemoveAt(old(files), FirstRecord(old(files), url).value)
      ensures r.Ok? ==> index == BuiltIndex(true, files, old(index))
      ensures present == old(present) && added == old(added)
    {
      if !present {
        return Err(ArmoryMissing);
      }
      var found := FindFirstRecord(files, url);
      if found.None? {
        return Err(NotInArmory);
      }
      files := RemoveAt(files, found.value);
      BuildArmoryIndex();
      r := Ok(url);
    }

    /** delete_repo with the corrected rebuild: the index always reflects the
        directory after the record is removed. */
    method DeleteRepoFixed(url: string) returns (r: Result<string, DeleteError>)
      modifies this
      ensures !old(present) ==> r == Err(ArmoryMissing)
      ensures old(present) && FirstRecord(old(files), url).None? ==> r == Err(NotInArmory)
      ensures r.Err? ==> files == old(files) && index == old(index)
      ensures r.Ok? <==> old(present) && FirstRecord(old(files), url).Some?
      ensures r.Ok? ==> r.value == url
      ensures r.Ok? ==> files == RemoveAt(old(files), FirstRecord(old(files), url).value)
      ensures r.Ok? ==> index == RebuiltIndex(true, files, old(index))
      ensures present == old(present) && added == old(added)
    {
      if !present {
        return Err(ArmoryMissing);
      }
      var found := FindFirstRecord(files, url);
      if found.None? {
        return Err(NotInArmory);
      }
      files := RemoveAt(files, found.value);
      RebuildArmoryIndex();
      r := Ok(url);
    }

    /** query_armory_index as written: a missing index is built first; a missing
        index after that, or a failing search, gives no results. */
    method QueryArmoryIndex(queryText: string, topK: int, search: Search) returns (results: seq<ArmoryHit>)
      modifies this
      ensures old(index).Some? ==> index == old(index)
      ensures old(index).None? ==> index == BuiltIndex(present, files, None)
      ensures present == old(present) && files == old(files) && added == old(added)
      ensures index.None? ==> results == []
      ensures index.Some? ==> results == SearchResults(search, index.value, queryText, topK)
    {
      if index.None? {
        BuildArmoryIndex();
      }
      if index.None? {
        return [];
      }
      results := SearchResults(search, index.value, queryText, topK);
    }

    /** query_armory_index over the corrected rebuild: a present directory always
        leaves an index to search, possibly an empty one. */
    method QueryArmoryIndexFixed(queryText: string, topK: int, search: Search) returns (results: seq<ArmoryHit>)
      modifies this
      ensures old(index).Some? ==> index == old(index)
      ensures old(index).None? ==> index == RebuiltIndex(present, files, None)
      ensures present == old(present) && files == old(files) && added == old(added)
      ensures index.None? ==> results == []
      ensures index.Some? ==> results == SearchResults(search, index.value, queryText, topK)
    {
      if index.None? {
        RebuildArmoryIndex();
      }
      if index.None? {
        return [];
      }
      results := SearchResults(search, index.value, queryText, topK);
    }
  }

  /** The results of a query over a loaded index: its hits, or none when the
      search raises. */
  function SearchResults(search: Search, docs: seq<Document>, queryText: string, topK: int): (r: seq<ArmoryHit>)
    ensures search(docs, queryText, topK).None? ==> r == []
    ensures search(docs, queryText, topK).Some? ==> |r| == |search(docs, queryText, topK).value|
  {
    match search(docs, queryText, topK)
    case None => []
    case Some(nodes) => HitsOf(nodes)
  }

  /** The scan of delete_repo: the position of the first entry recording the URL. */
  method FindFirstRecord(files: seq<ArmoryFile>, url: string) returns (found: Option<nat>)
    ensures found == FirstRecord(files, url)
  {
    found := None;
    var i := 0;
    while i < |files| && found.None?
      invariant 0 <= i <= |files|
      invariant found.None? ==> forall j :: 0 <= j < i ==> !RecordsUrl(files[j], url)
      invariant found.Some? ==> found == FirstRecord(files, url)
      decreases |files| - i, if found.None? then 1 else 0
    {
      if RecordsUrl(files[i], url) {
        found := Some(i);
      } else {
        i := i + 1;
      }
    }
  }

  /** As written, deleting the only record leaves the index built before the deletion
      in place, so the deleted repository is still found by a query. */
  lemma DeletingLastRecordKeepsStaleIndex(name: string, data: Json, url: string, d: Document)
    requires RecordsUrl((name, Parsed(data)), url)
    requires DocumentFor(data) == Some(d)
    ensures FirstRecord([(name, Parsed(data))], url) == Some(0)
    ensures RemoveAt([(name, Parsed(data))], 0) == []
    ensures d.url == JStr(url)
    ensures BuiltIndex(true, [], Some([d])) == Some([d])
  {
  }

  /** The two rebuilds differ only when the directory yields no document: then build_armory_index
      as written keeps whatever was persisted, and the corrected one persists an empty index. */
  lemma BuildsDifferOnlyWhenEmpty(present: bool, files: seq<ArmoryFile>, previous: Option<seq<Document>>)
    ensures DocumentsOf(files) != [] ==> BuiltIndex(present, files, previous) == RebuiltIndex(present, files, previous)
    ensures present && DocumentsOf(files) == [] ==>
      BuiltIndex(present, files, previous) == previous && RebuiltIndex(present, files, previous) == Some([])
  {
  }

  /** After the corrected rebuild no indexed document carries the URL of a repository
      that no entry of the directory records. */
  lemma {:induction false} RebuiltIndexForgetsUrl(files: seq<ArmoryFile>, url: string, previous: Option<seq<Document>>)
    requires forall j :: 0 <= j < |files| ==> !RecordsUrl(files[j], url)
    ensures RebuiltIndex(true, files, previous).Some?
    ensures forall d :: d in RebuiltIndex(true, files, previous).value ==> d.url != JStr(url)
  {
    forall d | d in DocumentsOf(files)
      ensures d.url != JStr(url)
    {
      DocumentsFromFiles(files, d);
      var i :| 0 <= i < |files| && FileDocument(files[i]) == Some(d);
      assert !RecordsUrl(files[i], url);
    }
  }

  /** Deleting a repository recorded once removes it from the rebuilt index and keeps
      the document of every other record. */
  lemma {:induction false} DeleteForgetsOnlyTheDeleted(files: seq<ArmoryFile>, url: string, k: nat)
    requires FirstRecord(files, url) == Some(k)
    requires forall j :: 0 <= j < |files| && j != k ==> !RecordsUrl(files[j], url)
    ensures forall d :: d in DocumentsOf(RemoveAt(files, k)) ==> d.url != JStr(url)
    ensures forall j :: 0 <= j < |files| && j != k && FileDocument(files[j]).Some? ==>
      FileDocument(files[j]).value in DocumentsOf(RemoveAt(files, k))
  {
    var rest := RemoveAt(files, k);
    forall j | 0 <= j < |rest|
      ensures !RecordsUrl(rest[j], url)
    {
      if j < k {
        assert rest[j] == files[j];
      } else {
        assert rest[j] == files[j + 1];
      }
    }
    RebuiltIndexForgetsUrl(rest, url, None);
    forall j | 0 <= j < |files| && j != k && FileDocument(files[j]).Some?
      ensures FileDocument(files[j]).value in DocumentsOf(rest)
    {
      var jj := if j < k then j else j - 1;
      assert rest[jj] == files[j];
      FilesToDocuments(rest, jj);
    }
  }
}
