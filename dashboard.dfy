/** The web dashboard's API over the same database: the posts of a project, the
    spark board layout (read, and saved in one transaction that renumbers the sparks
    and their connections), and the creation of a project. */
module Dashboard {
  import opened Wrappers
  import opened Text
  import opened Json
  import opened Vault

  /** A JSON response and its HTTP status. */
  datatype Response = Response(status: int, body: Json)

  const StatusKey := "status"
  const MessageKey := "message"
  const SuccessStatus := "success"
  const ErrorStatus := "error"
  const LayoutSaved := "Layout saved."
  const NameRequired := "Project name is required."
  const NameTaken := "A project with this name already exists."
  const NotNullFailed := "NOT NULL constraint failed: "
  const IntOverflow := "Python int too large to convert to SQLite INTEGER"

  function StatusBody(status: string, message: string): Json {
    JObj([(StatusKey, JStr(status)), (MessageKey, JStr(message))])
  }

  // get_posts_for_project

  /** The project filter of the dashboard: the default project also takes the posts
      with no project. */
  function ProjectCondition(projectId: int): Condition {
    if projectId == DefaultProjectId then ProjectOrNull(projectId) else ProjectIs(projectId)
  }

  /** The dashboard and the desktop app's posts query agree on what a project holds,
      for every project id the desktop app treats as a filter. */
  lemma SameProjectFilter(projectId: int)
    requires projectId != 0
    ensures PostConditions(None, Some(projectId)) == [ProjectCondition(projectId)]
  {
  }

  /** A post is shown for a project when it belongs to it, or when the project is the
      default one and the post has none. */
  lemma ProjectConditionMeaning(projectId: int, post: PostRow)
    ensures AllHold([ProjectCondition(projectId)], post) <==>
      post.projectId == Some(projectId) || (projectId == DefaultProjectId && post.projectId.None?)
  {
    assert [ProjectCondition(projectId)][0] == ProjectCondition(projectId);
  }

  /** get_posts_for_project: the ids of the posts shown (ordering by creation time
      is not modelled). */
  method GetPostsForProject(db: VaultDb, projectId: int) returns (ids: set<int>)
    ensures ids == SelectPosts(db.State(), [ProjectCondition(projectId)])
  {
    var condition := if projectId == DefaultProjectId then ProjectOrNull(projectId) else ProjectIs(projectId);
    ids := set k | k in db.posts && AllHold([condition], db.posts[k]);
  }

  // handle_layout, GET

  function ProjectSparks(sparks: map<int, SparkRow>, projectId: int): map<int, SparkRow> {
    map k | k in sparks && sparks[k].projectId == projectId :: sparks[k]
  }

  function ProjectConnections(connections: map<int, ConnectionRow>, projectId: int): map<int, ConnectionRow> {
    map k | k in connections && connections[k].projectId == projectId :: connections[k]
  }

  /** handle_layout on GET: the project's sparks and connections, by row id. */
  method GetLayout(db: VaultDb, projectId: int) returns (sparks: map<int, SparkRow>, connections: map<int, ConnectionRow>)
    ensures sparks == ProjectSparks(db.sparks, projectId)
    ensures connections == ProjectConnections(db.connections, projectId)
    ensures forall k :: k in sparks <==> k in db.sparks && db.sparks[k].projectId == projectId
  {
    sparks := map k | k in db.sparks && db.sparks[k].projectId == projectId :: db.sparks[k];
    connections := map k | k in db.connections && db.connections[k].projectId == projectId :: db.connections[k];
  }

  // handle_layout, POST

  /** Why saving a layout raised, inside its transaction. */
  datatype Failure =
    | KeyMissing(key: string)       // KeyError from item[key]
    | NotSubscriptable(value: Json) // TypeError from indexing a value that is not a dict
    | NotIterable(value: Json)      // TypeError from iterating a value that is no collection
    | Unhashable(value: Json)       // TypeError from using a list or dict as a dict key
    | Unbindable(value: Json)       // a list or dict given to SQLite as a parameter
    | TooLarge(n: int)              // OverflowError from an int outside SQLite's 64 bits
    | NullColumn(column: string)    // IntegrityError from a NOT NULL column

  /** The wording Python gives to the type errors, taken as given. */
  type Describe = Failure -> string

  /** str(e) for the exception a failure stands for. */
  function FailureText(describe: Describe, f: Failure): string {
    match f
    case KeyMissing(key) => "'" + key + "'"
    case NullColumn(column) => NotNullFailed + column
    case TooLarge(_) => IntOverflow
    case _ => describe(f)
  }

  /** item[key] */
  function Subscript(item: Json, key: string): Result<Json, Failure> {
    match item
    case JObj(fields) =>
      (match Lookup(fields, key)
       case Some(v) => Ok(v)
       case None => Err(KeyMissing(key)))
    case _ => Err(NotSubscriptable(item))
  }

  /** What a for loop visits: a list's items, a dict's keys, a string's characters. */
  function Iterate(j: Json): Result<seq<Json>, Failure> {
    match j
    case JArr(items) => Ok(items)
    case JObj(fields) => Ok(seq(|fields|, i requires 0 <= i < |fields| => JStr(fields[i].0)))
    case JStr(s) => Ok(seq(|s|, i requires 0 <= i < |s| => JStr([s[i]])))
    case _ => Err(NotIterable(j))
  }

  /** Lists and dicts cannot be dict keys. */
  predicate Hashable(j: Json) {
    !j.JArr? && !j.JObj?
  }

  /** The range of an SQLite INTEGER, a signed 64-bit value. */
  predicate FitsInteger(n: int) {
    -0x8000_0000_0000_0000 <= n < 0x8000_0000_0000_0000
  }

  /** The value SQLite stores for a bound Python value; an int outside 64 bits
      raises OverflowError. */
  function Bind(j: Json): Result<SqlValue, Failure> {
    match j
    case JNull => Ok(SqlNull)
    case JBool(b) => Ok(SqlInt(if b then 1 else 0))
    case JInt(n) => if FitsInteger(n) then Ok(SqlInt(n)) else Err(TooLarge(n))
    case JStr(s) => Ok(SqlText(s))
    case _ => Err(Unbindable(j))
  }

  /** INSERT INTO sparks: every parameter is bound, then the NOT NULL columns are
      checked in table order. */
  function SparkRowFor(projectId: int, postId: Json, x: Json, y: Json): Result<SparkRow, Failure> {
    var p :- Bind(postId);
    var px :- Bind(x);
    var py :- Bind(y);
    if p.SqlNull? then Err(NullColumn("sparks.post_id"))
    else if px.SqlNull? then Err(NullColumn("sparks.x_pos"))
    else if py.SqlNull? then Err(NullColumn("sparks.y_pos"))
    else Ok(SparkRow(projectId, p, px, py))
  }

  /** One pass of the sparks loop: the spark is inserted under the next id, then its
      frontend id is mapped to that id. */
  function SaveSpark(t: Tables, ids: map<Json, int>, projectId: int, item: Json): Result<(Tables, map<Json, int>), Failure> {
    var postId :- Subscript(item, "post_id");
    var x :- Subscript(item, "x_pos");
    var y :- Subscript(item, "y_pos");
    var row :- SparkRowFor(projectId, postId, x, y);
    var id := t.nextSparkId;
    var t' := t.(sparks := t.sparks[id := row], nextSparkId := id + 1);
    var key :- Subscript(item, "id");
    if !Hashable(key) then Err(Unhashable(key))
    else Ok((t', ids[key := id]))
  }

  /** The sparks loop over the first k items, stopping at the first failure. */
  function SaveSparksUpTo(t: Tables, projectId: int, items: seq<Json>, k: nat): Result<(Tables, map<Json, int>), Failure>
    requires k <= |items|
    decreases k
  {
    if k == 0 then Ok((t, map[]))
    else
      var before :- SaveSparksUpTo(t, projectId, items, k - 1);
      SaveSpark(before.0, before.1, projectId, items[k - 1])
  }

  /** spark_id_map.get(key), which raises for a list or dict key. */
  function MappedId(ids: map<Json, int>, key: Json): Result<Option<int>, Failure> {
    if !Hashable(key) then Err(Unhashable(key))
    else if key in ids then Ok(Some(ids[key]))
    else Ok(None)
  }

  /** Python truthiness of the looked-up id. */
  predicate TruthyId(id: Option<int>) {
    id.Some? && id.value != 0
  }

  /** One pass of the connections loop: inserted, with the new spark ids, only when
      both ends were saved. */
  function SaveConnection(t: Tables, ids: map<Json, int>, projectId: int, item: Json): Result<Tables, Failure> {
    var startKey :- Subscript(item, "start_spark_id");
    var startId :- MappedId(ids, startKey);
    var endKey :- Subscript(item, "end_spark_id");
    var endId :- MappedId(ids, endKey);
    if TruthyId(startId) && TruthyId(endId) then
      var caption :- Bind(GetOr(item, "label", JNull));
      Ok(t.(connections := t.connections[t.nextConnectionId := ConnectionRow(projectId, startId.value, endId.value, caption)],
            nextConnectionId := t.nextConnectionId + 1))
    else Ok(t)
  }

  function SaveConnectionsUpTo(t: Tables, ids: map<Json, int>, projectId: int, items: seq<Json>, k: nat): Result<Tables, Failure>
    requires k <= |items|
    decreases k
  {
    if k == 0 then Ok(t)
    else
      var before :- SaveConnectionsUpTo(t, ids, projectId, items, k - 1);
      SaveConnection(before, ids, projectId, items[k - 1])
  }

  /** The project's old sparks and connections deleted. */
  function ClearLayout(t: Tables, projectId: int): Tables {
    t.(connections := ConnectionsWithoutProject(t.connections, projectId),
       sparks := SparksWithoutProject(t.sparks, projectId))
  }

  function SparksData(layout: seq<Field>): Json {
    Lookup(layout, "sparks").GetOr(JArr([]))
  }

  function ConnectionsData(layout: seq<Field>): Json {
    Lookup(layout, "connections").GetOr(JArr([]))
  }

  /** The transaction of handle_layout on POST: the tables it commits, or the
      failure that rolls it back. */
  function SaveLayout(t: Tables, projectId: int, layout: seq<Field>): Result<Tables, Failure> {
    var cleared := ClearLayout(t, projectId);
    var sparkItems :- Iterate(SparksData(layout));
    var saved :- SaveSparksUpTo(cleared, projectId, sparkItems, |sparkItems|);
    var connectionItems :- Iterate(ConnectionsData(layout));
    SaveConnectionsUpTo(saved.0, saved.1, projectId, connectionItems, |connectionItems|)
  }

  /** The response handle_layout gives on POST. */
  function LayoutResponse(describe: Describe, outcome: Result<Tables, Failure>): Response {
    match outcome
    case Ok(_) => Response(200, StatusBody(SuccessStatus, LayoutSaved))
    case Err(f) => Response(500, StatusBody(ErrorStatus, FailureText(describe, f)))
  }

  // What a save keeps.

  /** The rows a save may not touch: other projects' sparks and connections, and
      every other table. */
  predicate KeepsOthers(t: Tables, t': Tables, projectId: int) {
    && t'.projects == t.projects && t'.categories == t.categories && t'.posts == t.posts
    && t'.nextProjectId == t.nextProjectId && t'.nextCategoryId == t.nextCategoryId
    && SparksWithoutProject(t'.sparks, projectId) == SparksWithoutProject(t.sparks, projectId)
    && ConnectionsWithoutProject(t'.connections, projectId) == ConnectionsWithoutProject(t.connections, projectId)
  }

  /** What holds of the board being saved after each spark: other rows kept, every
      spark of the project is one inserted by this save, each mapped id names one. */
  predicate SparksSaved(t: Tables, projectId: int, t': Tables, ids: map<Json, int>) {
    && KeepsOthers(t, t', projectId)
    && t'.connections == t.connections && t'.nextConnectionId == t.nextConnectionId
    && t.nextSparkId <= t'.nextSparkId
    && (forall k :: k in t'.sparks && t'.sparks[k].projectId == projectId ==> t.nextSparkId <= k < t'.nextSparkId)
    && (forall k :: t.nextSparkId <= k < t'.nextSparkId ==> k in t'.sparks && t'.sparks[k].projectId == projectId)
    && (forall key :: key in ids ==> t.nextSparkId <= ids[key] < t'.nextSparkId)
  }

  /** A table of sparks with none of the project's left, ready for the new ones. */
  predicate ClearedFor(t: Tables, projectId: int) {
    && TablesValid(t)
    && (forall k :: k in t.sparks ==> t.sparks[k].projectId != projectId)
    && (forall k :: k in t.connections ==> t.connections[k].projectId != projectId)
  }

  lemma ClearedLayout(t: Tables, projectId: int)
    requires TablesValid(t)
    ensures ClearedFor(ClearLayout(t, projectId), projectId)
    ensures KeepsOthers(t, ClearLayout(t, projectId), projectId)
  {
    var c := ClearLayout(t, projectId);
    assert ProjectNames(c.projects) == ProjectNames(t.projects);
    assert SparksWithoutProject(c.sparks, projectId) == SparksWithoutProject(t.sparks, projectId);
    assert ConnectionsWithoutProject(c.connections, projectId) == ConnectionsWithoutProject(t.connections, projectId);
  }

  /** A saved spark is one row of the project under the next id, and its frontend id
      is mapped to that id. */
  lemma SaveSparkShape(t: Tables, ids: map<Json, int>, projectId: int, item: Json)
    requires SaveSpark(t, ids, projectId, item).Ok?
    ensures var (t', ids') := SaveSpark(t, ids, projectId, item).value;
      && t' == t.(sparks := t.sparks[t.nextSparkId := t'.sparks[t.nextSparkId]], nextSparkId := t.nextSparkId + 1)
      && t'.sparks[t.nextSparkId].projectId == projectId
      && (forall key :: key in ids' ==> ids'[key] == t.nextSparkId || (key in ids && ids'[key] == ids[key]))
  {
  }

  /** Each spark is stored with the post id sent for it, and the map sends the
      spark's frontend id to the id it was stored under. */
  lemma SparkIdMapped(t: Tables, ids: map<Json, int>, projectId: int, item: Json)
    requires SaveSpark(t, ids, projectId, item).Ok?
    ensures item.JObj? && Lookup(item.fields, "id").Some? && Lookup(item.fields, "post_id").Some?
    ensures var (t', ids') := SaveSpark(t, ids, projectId, item).value;
      && ids' == ids[Lookup(item.fields, "id").value := t.nextSparkId]
      && t.nextSparkId in t'.sparks
      && Bind(Lookup(item.fields, "post_id").value) == Ok(t'.sparks[t.nextSparkId].postId)
  {
  }

  lemma SaveSparkStep(t: Tables, projectId: int, t1: Tables, ids: map<Json, int>, item: Json)
    requires ClearedFor(t, projectId) && SparksSaved(t, projectId, t1, ids) && TablesValid(t1)
    requires SaveSpark(t1, ids, projectId, item).Ok?
    ensures var (t2, ids2) := SaveSpark(t1, ids, projectId, item).value;
      SparksSaved(t, projectId, t2, ids2) && TablesValid(t2)
  {
    SaveSparkShape(t1, ids, projectId, item);
    var (t2, ids2) := SaveSpark(t1, ids, projectId, item).value;
    StepKeepsSparks(t, projectId, t1, ids, t2, ids2, t2.sparks[t1.nextSparkId]);
  }

  lemma StepKeepsSparks(t: Tables, projectId: int, t1: Tables, ids: map<Json, int>, t2: Tables, ids2: map<Json, int>, row: SparkRow)
    requires ClearedFor(t, projectId) && SparksSaved(t, projectId, t1, ids) && TablesValid(t1)
    requires t2 == t1.(sparks := t1.sparks[t1.nextSparkId := row], nextSparkId := t1.nextSparkId + 1)
    requires row.projectId == projectId
    requires forall key :: key in ids2 ==> ids2[key] == t1.nextSparkId || (key in ids && ids2[key] == ids[key])
    ensures SparksSaved(t, projectId, t2, ids2) && TablesValid(t2)
  {
    assert SparksWithoutProject(t2.sparks, projectId) == SparksWithoutProject(t1.sparks, projectId);
    assert ProjectNames(t2.projects) == ProjectNames(t1.projects);
  }

  /** The sparks loop keeps SparksSaved. */
  lemma {:induction false} SaveSparksInvariant(t: Tables, projectId: int, items: seq<Json>, k: nat)
    requires k <= |items| && ClearedFor(t, projectId)
    requires SaveSparksUpTo(t, projectId, items, k).Ok?
    ensures var (t', ids) := SaveSparksUpTo(t, projectId, items, k).value;
      SparksSaved(t, projectId, t', ids) && TablesValid(t')
    ensures SaveSparksUpTo(t, projectId, items, k).value.0.nextSparkId == t.nextSparkId + k
    decreases k
  {
    if k > 0 {
      SaveSparksInvariant(t, projectId, items, k - 1);
      var before := SaveSparksUpTo(t, projectId, items, k - 1).value;
      SaveSparkStep(t, projectId, before.0, before.1, items[k - 1]);
    }
  }

  /** What holds after each connection: only connections of the project are added,
      each between two sparks the save inserted. */
  predicate ConnectionsSaved(t: Tables, projectId: int, t1: Tables, t': Tables) {
    && t'.sparks == t1.sparks && t'.nextSparkId == t1.nextSparkId
    && KeepsOthers(t, t', projectId)
    && (forall k :: k in t'.connections && t'.connections[k].projectId == projectId ==>
          && t'.connections[k].startSpark in t'.sparks && t'.sparks[t'.connections[k].startSpark].projectId == projectId
          && t'.connections[k].endSpark in t'.sparks && t'.sparks[t'.connections[k].endSpark].projectId == projectId)
  }

  /** A saved connection is either skipped or one row of the project under the next
      id, between two mapped sparks. */
  lemma SaveConnectionShape(t: Tables, ids: map<Json, int>, projectId: int, item: Json)
    requires SaveConnection(t, ids, projectId, item).Ok?
    ensures var t' := SaveConnection(t, ids, projectId, item).value;
      t' == t ||
      (&& t.nextConnectionId in t'.connections
       && var row := t'.connections[t.nextConnectionId];
       && t' == t.(connections := t.connections[t.nextConnectionId := row], nextConnectionId := t.nextConnectionId + 1)
       && row.projectId == projectId && row.startSpark in ids.Values && row.endSpark in ids.Values)
  {
  }

  /** A connection is stored exactly when both its ends were mapped to (non-zero)
      new ids, and it is stored with those ids. */
  lemma ConnectionUsesNewIds(t: Tables, ids: map<Json, int>, projectId: int, item: Json)
    requires SaveConnection(t, ids, projectId, item).Ok?
    ensures item.JObj? && Lookup(item.fields, "start_spark_id").Some? && Lookup(item.fields, "end_spark_id").Some?
    ensures var t' := SaveConnection(t, ids, projectId, item).value;
      var s := Lookup(item.fields, "start_spark_id").value;
      var e := Lookup(item.fields, "end_spark_id").value;
      && (t' != t <==> s in ids && e in ids && ids[s] != 0 && ids[e] != 0)
      && (t' != t ==> t.nextConnectionId in t'.connections
                      && t'.connections[t.nextConnectionId].startSpark == ids[s]
                      && t'.connections[t.nextConnectionId].endSpark == ids[e])
  {
  }

  lemma SaveConnectionStep(t: Tables, projectId: int, t1: Tables, ids: map<Json, int>, t2: Tables, item: Json)
    requires ClearedFor(t, projectId) && SparksSaved(t, projectId, t1, ids) && TablesValid(t1)
    requires ConnectionsSaved(t, projectId, t1, t2) && TablesValid(t2)
    requires SaveConnection(t2, ids, projectId, item).Ok?
    ensures var t3 := SaveConnection(t2, ids, projectId, item).value;
      ConnectionsSaved(t, projectId, t1, t3) && TablesValid(t3)
  {
    SaveConnectionShape(t2, ids, projectId, item);
    var t3 := SaveConnection(t2, ids, projectId, item).value;
    if t3 != t2 {
      StepKeepsConnections(t, projectId, t1, ids, t2, t3, t3.connections[t2.nextConnectionId]);
    }
  }

  lemma StepKeepsConnections(t: Tables, projectId: int, t1: Tables, ids: map<Json, int>, t2: Tables, t3: Tables, row: ConnectionRow)
    requires ClearedFor(t, projectId) && SparksSaved(t, projectId, t1, ids) && TablesValid(t1)
    requires ConnectionsSaved(t, projectId, t1, t2) && TablesValid(t2)
    requires t3 == t2.(connections := t2.connections[t2.nextConnectionId := row], nextConnectionId := t2.nextConnectionId + 1)
    requires row.projectId == projectId && row.startSpark in ids.Values && row.endSpark in ids.Values
    ensures ConnectionsSaved(t, projectId, t1, t3) && TablesValid(t3)
  {
    assert ConnectionsWithoutProject(t3.connections, projectId) == ConnectionsWithoutProject(t2.connections, projectId);
    assert ProjectNames(t3.projects) == ProjectNames(t2.projects);
  }

  lemma {:induction false} SaveConnectionsInvariant(t: Tables, projectId: int, t1: Tables, ids: map<Json, int>, items: seq<Json>, k: nat)
    requires k <= |items| && ClearedFor(t, projectId) && SparksSaved(t, projectId, t1, ids) && TablesValid(t1)
    requires SaveConnectionsUpTo(t1, ids, projectId, items, k).Ok?
    ensures var t' := SaveConnectionsUpTo(t1, ids, projectId, items, k).value;
      ConnectionsSaved(t, projectId, t1, t') && TablesValid(t')
    decreases k
  {
    if k > 0 {
      SaveConnectionsInvariant(t, projectId, t1, ids, items, k - 1);
      var before := SaveConnectionsUpTo(t1, ids, projectId, items, k - 1).value;
      SaveConnectionStep(t, projectId, t1, ids, before, items[k - 1]);
    }
  }

  /** A committed save keeps every other project's board and every other table,
      gives the project one new spark per item under fresh ids, and every connection
      it now has joins two of those sparks. */
  lemma SaveLayoutMeaning(t: Tables, projectId: int, layout: seq<Field>)
    requires TablesValid(t)
    requires SaveLayout(t, projectId, layout).Ok?
    ensures var t' := SaveLayout(t, projectId, layout).value;
      && TablesValid(t')
      && KeepsOthers(t, t', projectId)
      && Iterate(SparksData(layout)).Ok?
      && t'.nextSparkId == t.nextSparkId + |Iterate(SparksData(layout)).value|
      && (forall k :: k in t'.sparks && t'.sparks[k].projectId == projectId <==> t.nextSparkId <= k < t'.nextSparkId)
      && (forall k :: k in t'.connections && t'.connections[k].projectId == projectId ==>
            && t'.connections[k].startSpark in t'.sparks && t'.sparks[t'.connections[k].startSpark].projectId == projectId
            && t'.connections[k].endSpark in t'.sparks && t'.sparks[t'.connections[k].endSpark].projectId == projectId)
  {
    var cleared := ClearLayout(t, projectId);
    ClearedLayout(t, projectId);
    var sparkItems := Iterate(SparksData(layout)).value;
    SaveSparksInvariant(cleared, projectId, sparkItems, |sparkItems|);
    var saved := SaveSparksUpTo(cleared, projectId, sparkItems, |sparkItems|).value;
    var connectionItems := Iterate(ConnectionsData(layout)).value;
    SaveConnectionsInvariant(cleared, projectId, saved.0, saved.1, connectionItems, |connectionItems|);
    assert cleared.nextSparkId == t.nextSparkId;
  }

  /** A spark missing its post id stops the save with the KeyError for it. */
  lemma SparkWithoutPostIdFails(t: Tables, projectId: int, before: seq<Json>, fields: seq<Field>)
    requires Lookup(fields, "post_id").None?
    requires SaveSparksUpTo(ClearLayout(t, projectId), projectId, before, |before|).Ok?
    ensures SaveLayout(t, projectId, [("sparks", JArr(before + [JObj(fields)]))]) == Err(KeyMissing("post_id"))
  {
    var items := before + [JObj(fields)];
    var layout := [("sparks", JArr(items))];
    assert Iterate(SparksData(layout)) == Ok(items);
    SparksWithoutPostIdFail(ClearLayout(t, projectId), projectId, before, fields);
  }

  /** A spark whose post id is too large for SQLite fails the save with the
      OverflowError, so the transaction is rolled back and 500 carries its text. */
  lemma OversizedPostIdRollsBack(t: Tables, projectId: int, describe: Describe, fields: seq<Field>, n: int)
    requires Lookup(fields, "post_id") == Some(JInt(n)) && !FitsInteger(n)
    requires Lookup(fields, "x_pos").Some? && Lookup(fields, "y_pos").Some?
    ensures SaveLayout(t, projectId, [("sparks", JArr([JObj(fields)]))]) == Err(TooLarge(n))
    ensures LayoutResponse(describe, SaveLayout(t, projectId, [("sparks", JArr([JObj(fields)]))])) ==
      Response(500, StatusBody(ErrorStatus, IntOverflow))
  {
    var layout := [("sparks", JArr([JObj(fields)]))];
    assert Iterate(SparksData(layout)) == Ok([JObj(fields)]);
    assert SaveSparksUpTo(ClearLayout(t, projectId), projectId, [JObj(fields)], 1) == Err(TooLarge(n));
  }

  /** A connection between two saved sparks whose label is an integer too large for
      SQLite fails with the OverflowError instead of being inserted. */
  lemma OversizedLabelFails(t: Tables, ids: map<Json, int>, projectId: int, fields: seq<Field>, n: int)
    requires Lookup(fields, "start_spark_id").Some? && Lookup(fields, "end_spark_id").Some?
    requires var a := Lookup(fields, "start_spark_id").value; Hashable(a) && a in ids && ids[a] != 0
    requires var b := Lookup(fields, "end_spark_id").value; Hashable(b) && b in ids && ids[b] != 0
    requires Lookup(fields, "label") == Some(JInt(n)) && !FitsInteger(n)
    ensures SaveConnection(t, ids, projectId, JObj(fields)) == Err(TooLarge(n))
  {
  }

  lemma SparksWithoutPostIdFail(t: Tables, projectId: int, before: seq<Json>, fields: seq<Field>)
    requires Lookup(fields, "post_id").None?
    requires SaveSparksUpTo(t, projectId, before, |before|).Ok?
    ensures SaveSparksUpTo(t, projectId, before + [JObj(fields)], |before| + 1) == Err(KeyMissing("post_id"))
  {
    SaveSparksPrefix(t, projectId, before, [JObj(fields)], |before|);
    var saved := SaveSparksUpTo(t, projectId, before, |before|).value;
    assert SaveSpark(saved.0, saved.1, projectId, JObj(fields)) == Err(KeyMissing("post_id"));
  }

  lemma {:induction false} SaveSparksPrefix(t: Tables, projectId: int, xs: seq<Json>, ys: seq<Json>, k: nat)
    requires k <= |xs|
    ensures SaveSparksUpTo(t, projectId, xs + ys, k) == SaveSparksUpTo(t, projectId, xs, k)
    decreases k
  {
    if k > 0 {
      SaveSparksPrefix(t, projectId, xs, ys, k - 1);
      assert (xs + ys)[k - 1] == xs[k - 1];
    }
  }

  /** After a failure the rest of the sparks loop does not run. */
  lemma {:induction false} SparksFailureStays(t: Tables, projectId: int, items: seq<Json>, i: nat, k: nat)
    requires i <= k <= |items|
    requires SaveSparksUpTo(t, projectId, items, i).Err?
    ensures SaveSparksUpTo(t, projectId, items, k) == SaveSparksUpTo(t, projectId, items, i)
    decreases k
  {
    if k > i {
      SparksFailureStays(t, projectId, items, i, k - 1);
    }
  }

  lemma {:induction false} ConnectionsFailureStays(t: Tables, ids: map<Json, int>, projectId: int, items: seq<Json>, i: nat, k: nat)
    requires i <= k <= |items|
    requires SaveConnectionsUpTo(t, ids, projectId, items, i).Err?
    ensures SaveConnectionsUpTo(t, ids, projectId, items, k) == SaveConnectionsUpTo(t, ids, projectId, items, i)
    decreases k
  {
    if k > i {
      ConnectionsFailureStays(t, ids, projectId, items, i, k - 1);
    }
  }

  /** The statements of one pass of the sparks loop. */
  method InsertSpark(db: VaultDb, ids: map<Json, int>, projectId: int, item: Json) returns (r: Result<map<Json, int>, Failure>)
    modifies db
    ensures var step := SaveSpark(old(db.State()), ids, projectId, item);
      step.Ok? <==> r.Ok?
    ensures r.Ok? ==> SaveSpark(old(db.State()), ids, projectId, item) == Ok((db.State(), r.value))
    ensures r.Err? ==> SaveSpark(old(db.State()), ids, projectId, item) == Err(r.error)
  {
    var postId := Subscript(item, "post_id");
    if postId.Err? { return Err(postId.error); }
    var x := Subscript(item, "x_pos");
    if x.Err? { return Err(x.error); }
    var y := Subscript(item, "y_pos");
    if y.Err? { return Err(y.error); }
    var row := SparkRowFor(projectId, postId.value, x.value, y.value);
    if row.Err? { return Err(row.error); }
    var id := db.nextSparkId;
    db.sparks, db.nextSparkId := db.sparks[id := row.value], id + 1;
    var key := Subscript(item, "id");
    if key.Err? { return Err(key.error); }
    if !Hashable(key.value) { return Err(Unhashable(key.value)); }
    r := Ok(ids[key.value := id]);
  }

  /** The statements of one pass of the connections loop. */
  method InsertConnection(db: VaultDb, ids: map<Json, int>, projectId: int, item: Json) returns (r: Option<Failure>)
    modifies db
    ensures var step := SaveConnection(old(db.State()), ids, projectId, item);
      && (r.None? <==> step.Ok?)
      && (r.None? ==> step.value == db.State())
      && (r.Some? ==> step == Err(r.value))
  {
    var startKey := Subscript(item, "start_spark_id");
    if startKey.Err? { return Some(startKey.error); }
    var startId := MappedId(ids, startKey.value);
    if startId.Err? { return Some(startId.error); }
    var endKey := Subscript(item, "end_spark_id");
    if endKey.Err? { return Some(endKey.error); }
    var endId := MappedId(ids, endKey.value);
    if endId.Err? { return Some(endId.error); }
    if TruthyId(startId.value) && TruthyId(endId.value) {
      var caption := Bind(GetOr(item, "label", JNull));
      if caption.Err? { return Some(caption.error); }
      var row := ConnectionRow(projectId, startId.value.value, endId.value.value, caption.value);
      db.connections, db.nextConnectionId := db.connections[db.nextConnectionId := row], db.nextConnectionId + 1;
    }
    r := None;
  }

  /** The sparks loop: the id map on success, or the failure that stopped it. */
  method InsertSparks(db: VaultDb, projectId: int, items: seq<Json>) returns (r: Result<map<Json, int>, Failure>)
    modifies db
    ensures var all := SaveSparksUpTo(old(db.State()), projectId, items, |items|);
      && (r.Ok? <==> all.Ok?)
      && (r.Ok? ==> all.value == (db.State(), r.value))
      && (r.Err? ==> all == Err(r.error))
  {
    ghost var start := db.State();
    var ids: map<Json, int> := map[];
    for i := 0 to |items|
      invariant SaveSparksUpTo(start, projectId, items, i) == Ok((db.State(), ids))
    {
      var step := InsertSpark(db, ids, projectId, items[i]);
      if step.Err? {
        SparksFailureStays(start, projectId, items, i + 1, |items|);
        return Err(step.error);
      }
      ids := step.value;
    }
    r := Ok(ids);
  }

  /** The connections loop: None on success, or the failure that stopped it. */
  method InsertConnections(db: VaultDb, ids: map<Json, int>, projectId: int, items: seq<Json>) returns (r: Option<Failure>)
    modifies db
    ensures var all := SaveConnectionsUpTo(old(db.State()), ids, projectId, items, |items|);
      && (r.None? <==> all.Ok?)
      && (r.None? ==> all.value == db.State())
      && (r.Some? ==> all == Err(r.value))
  {
    ghost var start := db.State();
    for i := 0 to |items|
      invariant SaveConnectionsUpTo(start, ids, projectId, items, i) == Ok(db.State())
    {
      var step := InsertConnection(db, ids, projectId, items[i]);
      if step.Some? {
        ConnectionsFailureStays(start, ids, projectId, items, i + 1, |items|);
        return step;
      }
    }
    r := None;
  }

  /** handle_layout on POST: commit on success, roll back on any failure. */
  method SaveLayoutPost(db: VaultDb, projectId: int, layout: seq<Field>, describe: Describe) returns (r: Response)
    requires db.Valid()
    modifies db
    ensures r == LayoutResponse(describe, SaveLayout(old(db.State()), projectId, layout))
    ensures SaveLayout(old(db.State()), projectId, layout).Ok? ==> db.State() == SaveLayout(old(db.State()), projectId, layout).value
    ensures SaveLayout(old(db.State()), projectId, layout).Err? ==> db.State() == old(db.State())
    ensures db.Valid()
  {
    var snapshot := db.State();
    var sparksData := Lookup(layout, "sparks").GetOr(JArr([]));
    var connectionsData := Lookup(layout, "connections").GetOr(JArr([]));
    db.connections := ConnectionsWithoutProject(db.connections, projectId);
    db.sparks := SparksWithoutProject(db.sparks, projectId);
    assert db.State() == ClearLayout(snapshot, projectId);
    var failure: Option<Failure> := None;
    var sparkItems := Iterate(sparksData);
    if sparkItems.Err? {
      failure := Some(sparkItems.error);
    } else {
      var ids := InsertSparks(db, projectId, sparkItems.value);
      if ids.Err? {
        failure := Some(ids.error);
      } else {
        var connectionItems := Iterate(connectionsData);
        if connectionItems.Err? {
          failure := Some(connectionItems.error);
        } else {
          failure := InsertConnections(db, ids.value, projectId, connectionItems.value);
        }
      }
    }
    if failure.Some? {
      db.Restore(snapshot);
      return Response(500, StatusBody(ErrorStatus, FailureText(describe, failure.value)));
    }
    SaveLayoutMeaning(snapshot, projectId, layout);
    r := Response(200, StatusBody(SuccessStatus, LayoutSaved));
  }

  // create_project

  /** SQLite's TEXT affinity: numbers are stored as their text. */
  function AsText(v: SqlValue): Option<string> {
    match v
    case SqlNull => None
    case SqlInt(n) => Some(IntToString(n))
    case SqlText(s) => Some(s)
  }

  /** The outcome of create_project. */
  datatype Created = Created(response: Response, tables: Tables)

  /** create_project: 400 without a truthy name; a name or description SQLite cannot
      bind ends the request with an unhandled error (500, body not modelled); a name
      already taken is refused with 409; otherwise the project is inserted under the
      next id and 201 returns that id and the name as sent. */
  function CreateProject(t: Tables, data: seq<Field>): Created {
    var name := Lookup(data, "name").GetOr(JNull);
    var description := Lookup(data, "description").GetOr(JStr(""));
    if !Truthy(name) then Created(Response(400, StatusBody(ErrorStatus, NameRequired)), t)
    else
      match (Bind(name), Bind(description))
      case (Ok(n), Ok(d)) =>
        var text := AsText(n).GetOr("");
        if exists k :: k in t.projects && t.projects[k].name == text then
          Created(Response(409, StatusBody(ErrorStatus, NameTaken)), t)
        else
          var id := t.nextProjectId;
          Created(Response(201, JObj([(StatusKey, JStr(SuccessStatus)), ("id", JInt(id)), ("name", name)])),
                  t.(projects := t.projects[id := ProjectRow(text, AsText(d))], nextProjectId := id + 1))
      case _ => Created(Response(500, JNull), t)
  }

  /** Only a 201 changes the tables, adding exactly the one project row the response
      names; the tables stay valid. */
  lemma CreateProjectMeaning(t: Tables, data: seq<Field>)
    requires TablesValid(t)
    ensures var c := CreateProject(t, data);
      && TablesValid(c.tables)
      && (c.response.status != 201 ==> c.tables == t)
      && (c.response.status == 201 ==>
            && t.nextProjectId !in t.projects
            && c.tables.projects.Keys == t.projects.Keys + {t.nextProjectId}
            && (forall k :: k in t.projects ==> c.tables.projects[k] == t.projects[k])
            && Get(c.response.body, "id") == Some(JInt(t.nextProjectId)))
      && c.response.status in {201, 400, 409, 500}
      && (c.response.status == 400 <==> !Truthy(Lookup(data, "name").GetOr(JNull)))
  {
    var c := CreateProject(t, data);
    if c.response.status == 201 {
      var name := Lookup(data, "name").GetOr(JNull);
      var text := AsText(Bind(name).value).GetOr("");
      var id := t.nextProjectId;
      var fields := [(StatusKey, JStr(SuccessStatus)), ("id", JInt(id)), ("name", name)];
      assert fields[..2] == [(StatusKey, JStr(SuccessStatus)), ("id", JInt(id))];
      assert Lookup(fields, "id") == Some(JInt(id));
      assert ProjectNames(c.tables.projects) == ProjectNames(t.projects)[id := text];
      InsertKeepsUnique(ProjectNames(t.projects), id, text);
    }
  }

  /** Sending a name that is already taken is refused with 409 and changes nothing. */
  lemma CreateTakenName(t: Tables, name: string, k: int)
    requires k in t.projects && t.projects[k].name == name && name != ""
    ensures CreateProject(t, [("name", JStr(name))]) == Created(Response(409, StatusBody(ErrorStatus, NameTaken)), t)
  {
  }

  /** An integer name too large for SQLite raises OverflowError in the INSERT, which
      is not the IntegrityError the handler catches: the request fails and nothing
      is inserted. */
  lemma CreateOversizedName(t: Tables, n: int)
    requires !FitsInteger(n)
    ensures CreateProject(t, [("name", JInt(n))]) == Created(Response(500, JNull), t)
  {
  }

  /** create_project on the database. */
  method CreateProjectPost(db: VaultDb, data: seq<Field>) returns (r: Response)
    requires db.Valid()
    modifies db
    ensures CreateProject(old(db.State()), data) == Created(r, db.State())
    ensures db.Valid()
  {
    CreateProjectMeaning(db.State(), data);
    var name := Lookup(data, "name").GetOr(JNull);
    var description := Lookup(data, "description").GetOr(JStr(""));
    if !Truthy(name) {
      return Response(400, StatusBody(ErrorStatus, NameRequired));
    }
    var n := Bind(name);
    var d := Bind(description);
    if n.Err? || d.Err? {
      return Response(500, JNull);
    }
    var text := AsText(n.value).GetOr("");
    if exists k :: k in db.projects && db.projects[k].name == text {
      return Response(409, StatusBody(ErrorStatus, NameTaken));
    }
    var id := db.nextProjectId;
    db.projects, db.nextProjectId := db.projects[id := ProjectRow(text, AsText(d.value))], id + 1;
    r := Response(201, JObj([(StatusKey, JStr(SuccessStatus)), ("id", JInt(id)), ("name", name)]));
  }
}
