/** The desktop app's SQLite store: the projects, categories, posts, sparks and
    connections tables, the get-or-create lookups for project and category names,
    the filtered posts query and the deletes that keep the other tables consistent. */
module Vault {
  import opened Wrappers
  import opened Text

  /** The "Uncategorized Ideas" project, which every database is created with. */
  const DefaultProjectId := 1

  /** A value as SQLite stores it after binding a Python value. */
  datatype SqlValue = SqlNull | SqlInt(i: int) | SqlText(t: string)

  datatype ProjectRow = ProjectRow(name: string, description: Option<string>)

  /** The post columns the modelled operations read or write. */
  datatype PostRow = PostRow(
    author: Option<string>, postText: Option<string>, notes: Option<string>,
    categoryId: Option<int>, projectId: Option<int>)

  /** A card placed on a project's board. */
  datatype SparkRow = SparkRow(projectId: int, postId: SqlValue, x: SqlValue, y: SqlValue)

  /** A line drawn between two sparks of a project, with its label as caption. */
  datatype ConnectionRow = ConnectionRow(projectId: int, startSpark: int, endSpark: int, caption: SqlValue)

  /** The tables by row id, with the next id AUTOINCREMENT hands out for each table
      that rows are inserted into. */
  datatype Tables = Tables(
    projects: map<int, ProjectRow>, nextProjectId: int,
    categories: map<int, string>, nextCategoryId: int,
    posts: map<int, PostRow>,
    sparks: map<int, SparkRow>, nextSparkId: int,
    connections: map<int, ConnectionRow>, nextConnectionId: int)

  /** Every row id is below the next one handed out, ids start at 1, and the UNIQUE
      name columns hold no name twice. */
  predicate TablesValid(t: Tables) {
    && 1 <= t.nextProjectId && 1 <= t.nextCategoryId && 1 <= t.nextSparkId && 1 <= t.nextConnectionId
    && (forall k :: k in t.projects ==> k < t.nextProjectId)
    && (forall k :: k in t.categories ==> k < t.nextCategoryId)
    && (forall k :: k in t.sparks ==> k < t.nextSparkId)
    && (forall k :: k in t.connections ==> k < t.nextConnectionId)
    && UniqueNames(ProjectNames(t.projects))
    && UniqueNames(t.categories)
  }

  function ProjectNames(projects: map<int, ProjectRow>): (r: map<int, string>)
    ensures r.Keys == projects.Keys
    ensures forall k :: k in r ==> r[k] == projects[k].name
  {
    map k | k in projects :: projects[k].name
  }

  predicate UniqueNames(names: map<int, string>) {
    forall a, b :: a in names && b in names && names[a] == names[b] ==> a == b
  }

  /** `not name or not name.strip()`: no name, the empty name or only whitespace. */
  predicate Blank(name: Option<string>) {
    name.None? || IsBlank(name.value)
  }

  /** SELECT id ... WHERE name = ?: the row holding exactly that name. */
  ghost function IdNamed(names: map<int, string>, name: string): (r: Option<int>)
    ensures r.Some? ==> r.value in names && names[r.value] == name
    ensures r.None? ==> forall k :: k in names ==> names[k] != name
  {
    if exists k :: k in names && names[k] == name then
      var k :| k in names && names[k] == name; Some(k)
    else None
  }

  /** With unique names, any row holding the name is the one found. */
  lemma IdNamedUnique(names: map<int, string>, name: string, k: int)
    requires UniqueNames(names)
    requires k in names && names[k] == name
    ensures IdNamed(names, name) == Some(k)
  {
  }

  /** get_or_create_project_id: the id, and the tables afterwards. */
  ghost function GetOrCreateProject(t: Tables, name: Option<string>): (int, Tables) {
    if Blank(name) then (DefaultProjectId, t)
    else
      match IdNamed(ProjectNames(t.projects), name.value)
      case Some(id) => (id, t)
      case None =>
        (t.nextProjectId,
         t.(projects := t.projects[t.nextProjectId := ProjectRow(name.value, None)],
            nextProjectId := t.nextProjectId + 1))
  }

  /** get_or_create_category_id: the id (None for a blank name), and the tables afterwards. */
  ghost function GetOrCreateCategory(t: Tables, name: Option<string>): (Option<int>, Tables) {
    if Blank(name) then (None, t)
    else
      match IdNamed(t.categories, name.value)
      case Some(id) => (Some(id), t)
      case None =>
        (Some(t.nextCategoryId),
         t.(categories := t.categories[t.nextCategoryId := name.value],
            nextCategoryId := t.nextCategoryId + 1))
  }

  /** A blank project name maps to the default project and touches nothing. */
  lemma BlankProjectIsDefault(t: Tables, name: Option<string>)
    requires Blank(name)
    ensures GetOrCreateProject(t, name) == (DefaultProjectId, t)
  {
  }

  /** A blank category name maps to no category and touches nothing. */
  lemma BlankCategoryIsNone(t: Tables, name: Option<string>)
    requires Blank(name)
    ensures GetOrCreateCategory(t, name) == (None, t)
  {
  }

  /** A name already present gives its row's id and changes nothing; a new name gets
      exactly one new row holding it, under a fresh id; either way the tables stay
      valid. */
  lemma GetOrCreateProjectMeaning(t: Tables, name: Option<string>)
    requires TablesValid(t) && !Blank(name)
    ensures var (id, t') := GetOrCreateProject(t, name);
      && id in t'.projects && t'.projects[id].name == name.value
      && TablesValid(t')
      && (if exists k :: k in t.projects && t.projects[k].name == name.value
          then t' == t
          else id !in t.projects && t' == t.(projects := t.projects[id := ProjectRow(name.value, None)],
                                             nextProjectId := t.nextProjectId + 1))
  {
    var names := ProjectNames(t.projects);
    if exists k :: k in t.projects && t.projects[k].name == name.value {
      var k :| k in t.projects && t.projects[k].name == name.value;
      IdNamedUnique(names, name.value, k);
    } else {
      var id := t.nextProjectId;
      assert ProjectNames(t.projects[id := ProjectRow(name.value, None)]) == names[id := name.value];
      InsertKeepsUnique(names, id, name.value);
    }
  }

  /** A name no row holds can be added under any id without repeating a name. */
  lemma InsertKeepsUnique(names: map<int, string>, id: int, name: string)
    requires UniqueNames(names)
    requires forall k :: k in names ==> names[k] != name
    ensures UniqueNames(names[id := name])
  {
    var names' := names[id := name];
    forall a, b | a in names' && b in names' && names'[a] == names'[b]
      ensures a == b
    {
      if a != id && b != id {
        assert names[a] == names[b];
      }
    }
  }

  /** Asking for the same project name twice gives the same id, and the second call
      changes nothing. */
  lemma GetOrCreateProjectIdempotent(t: Tables, name: Option<string>)
    requires TablesValid(t)
    ensures var (id, t') := GetOrCreateProject(t, name);
      GetOrCreateProject(t', name) == (id, t')
  {
    if !Blank(name) {
      GetOrCreateProjectMeaning(t, name);
      var (id, t') := GetOrCreateProject(t, name);
      IdNamedUnique(ProjectNames(t'.projects), name.value, id);
    }
  }

  /** The category counterpart of GetOrCreateProjectMeaning. */
  lemma GetOrCreateCategoryMeaning(t: Tables, name: Option<string>)
    requires TablesValid(t) && !Blank(name)
    ensures var (id, t') := GetOrCreateCategory(t, name);
      && id.Some? && id.value in t'.categories && t'.categories[id.value] == name.value
      && TablesValid(t')
      && (if exists k :: k in t.categories && t.categories[k] == name.value
          then t' == t
          else id.value !in t.categories && t' == t.(categories := t.categories[id.value := name.value],
                                                     nextCategoryId := t.nextCategoryId + 1))
  {
    if exists k :: k in t.categories && t.categories[k] == name.value {
      var k :| k in t.categories && t.categories[k] == name.value;
      IdNamedUnique(t.categories, name.value, k);
    } else {
      InsertKeepsUnique(t.categories, t.nextCategoryId, name.value);
    }
  }

  lemma GetOrCreateCategoryIdempotent(t: Tables, name: Option<string>)
    requires TablesValid(t)
    ensures var (id, t') := GetOrCreateCategory(t, name);
      GetOrCreateCategory(t', name) == (id, t')
  {
    if !Blank(name) {
      GetOrCreateCategoryMeaning(t, name);
      var (id, t') := GetOrCreateCategory(t, name);
      IdNamedUnique(t'.categories, name.value, id.value);
    }
  }

  // The filtered posts query of get_all_posts.

  /** One WHERE condition of the posts query. */
  datatype Condition = ProjectOrNull(id: int) | ProjectIs(id: int) | Search(term: string)

  datatype Param = PInt(n: int) | PText(s: string)

  const ProjectOrNullSql := "(p.project_id = ? OR p.project_id IS NULL)"
  const ProjectIsSql := "p.project_id = ?"
  const SearchSql := "(p.author LIKE ? OR p.post_text LIKE ? OR p.notes LIKE ?)"
  const WhereKeyword := " WHERE "
  const AndKeyword := " AND "
  const OrderByNewest := " ORDER BY p.created_at DESC"

  function ConditionSql(c: Condition): string {
    match c
    case ProjectOrNull(_) => ProjectOrNullSql
    case ProjectIs(_) => ProjectIsSql
    case Search(_) => SearchSql
  }

  /** f"%{term}%" */
  function LikePattern(term: string): string {
    "%" + term + "%"
  }

  /** The parameters a condition binds, one per placeholder, in order. */
  function ConditionParams(c: Condition): seq<Param> {
    match c
    case ProjectOrNull(id) => [PInt(id)]
    case ProjectIs(id) => [PInt(id)]
    case Search(term) => [PText(LikePattern(term)), PText(LikePattern(term)), PText(LikePattern(term))]
  }

  /** The conditions get_all_posts adds: a project filter when the id is truthy
      (project 1 also taking posts with no project), then a search filter when the
      term is not blank. */
  function PostConditions(searchTerm: Option<string>, projectId: Option<int>): (r: seq<Condition>)
    ensures |r| <= 2
  {
    ProjectConditions(projectId) + SearchConditions(searchTerm)
  }

  function ProjectConditions(projectId: Option<int>): seq<Condition> {
    if projectId.None? || projectId.value == 0 then []
    else if projectId.value == DefaultProjectId then [ProjectOrNull(projectId.value)]
    else [ProjectIs(projectId.value)]
  }

  function SearchConditions(searchTerm: Option<string>): seq<Condition> {
    if Blank(searchTerm) then [] else [Search(searchTerm.value)]
  }

  /** What get_all_posts appends to its fixed SELECT for a list of conditions. */
  function QuerySuffix(conditions: seq<Condition>): string {
    WhereClause(conditions) + OrderByNewest
  }

  /** The WHERE clause: nothing without conditions, else their texts joined by AND. */
  function WhereClause(conditions: seq<Condition>): string {
    if conditions == [] then "" else WhereKeyword + Join(Clauses(conditions), AndKeyword)
  }

  function Clauses(conditions: seq<Condition>): (r: seq<string>)
    ensures |r| == |conditions|
    decreases |conditions|
  {
    if conditions == [] then []
    else Clauses(conditions[..|conditions| - 1]) + [ConditionSql(conditions[|conditions| - 1])]
  }

  /** SQLite's LIKE '%term%' on a column: NULL never matches, and letters compare
      without regard to ASCII case. */
  predicate LikeContains(column: Option<string>, term: string) {
    column.Some? && Contains(Lower(column.value), Lower(term))
  }

  /** Whether a post satisfies one condition. */
  predicate Holds(c: Condition, post: PostRow) {
    match c
    case ProjectOrNull(id) => post.projectId == Some(id) || post.projectId.None?
    case ProjectIs(id) => post.projectId == Some(id)
    case Search(term) =>
      LikeContains(post.author, term) || LikeContains(post.postText, term) || LikeContains(post.notes, term)
  }

  /** Conditions joined with AND. */
  predicate AllHold(conditions: seq<Condition>, post: PostRow) {
    forall i :: 0 <= i < |conditions| ==> Holds(conditions[i], post)
  }

  /** The posts the query returns, by id (their order by creation time is not modelled). */
  function SelectPosts(t: Tables, conditions: seq<Condition>): set<int> {
    set k | k in t.posts && AllHold(conditions, t.posts[k])
  }

  /** The intent of get_all_posts: a post is returned exactly when it is in the asked
      project (the default project also holding posts with no project, and no
      project asked meaning all of them) and, unless the term is blank, its author,
      text or notes contain the term. */
  lemma PostConditionsMeaning(searchTerm: Option<string>, projectId: Option<int>, post: PostRow)
    ensures AllHold(PostConditions(searchTerm, projectId), post) <==>
      && (projectId.None? || projectId.value == 0 || post.projectId == projectId
          || (projectId.value == DefaultProjectId && post.projectId.None?))
      && (Blank(searchTerm)
          || LikeContains(post.author, searchTerm.value)
          || LikeContains(post.postText, searchTerm.value)
          || LikeContains(post.notes, searchTerm.value))
  {
    var conds := PostConditions(searchTerm, projectId);
    if !Blank(searchTerm) {
      assert Holds(conds[|conds| - 1], post) <==>
        LikeContains(post.author, searchTerm.value) || LikeContains(post.postText, searchTerm.value)
        || LikeContains(post.notes, searchTerm.value);
    }
    if !(projectId.None? || projectId.value == 0) {
      assert Holds(conds[0], post) <==>
        post.projectId == projectId || (projectId.value == DefaultProjectId && post.projectId.None?);
    }
  }

  /** Without conditions the query has no WHERE clause; with them, the clause lists
      each condition once, joined by AND, in order. */
  lemma PostsQueryShape(searchTerm: Option<string>, projectId: Option<int>)
    ensures var conds := PostConditions(searchTerm, projectId);
      && (conds == [] ==> WhereClause(conds) == "")
      && (|conds| == 1 ==> WhereClause(conds) == WhereKeyword + ConditionSql(conds[0]))
      && (|conds| == 2 ==> WhereClause(conds) == WhereKeyword + ConditionSql(conds[0]) + AndKeyword + ConditionSql(conds[1]))
  {
    var conds := PostConditions(searchTerm, projectId);
    if |conds| == 2 {
      assert Clauses(conds[..1]) == [ConditionSql(conds[0])];
      assert Join(Clauses(conds), AndKeyword) == ConditionSql(conds[0]) + AndKeyword + ConditionSql(conds[1]);
    }
  }

  // The deletes.

  function SparksWithoutPost(sparks: map<int, SparkRow>, postId: int): map<int, SparkRow> {
    map k | k in sparks && sparks[k].postId != SqlInt(postId) :: sparks[k]
  }

  function SparksWithoutProject(sparks: map<int, SparkRow>, projectId: int): map<int, SparkRow> {
    map k | k in sparks && sparks[k].projectId != projectId :: sparks[k]
  }

  function ConnectionsWithoutProject(connections: map<int, ConnectionRow>, projectId: int): map<int, ConnectionRow> {
    map k | k in connections && connections[k].projectId != projectId :: connections[k]
  }

  /** UPDATE posts SET project_id = 1 WHERE project_id = ? */
  function PostsMovedToDefault(posts: map<int, PostRow>, projectId: int): map<int, PostRow> {
    map k | k in posts :: if posts[k].projectId == Some(projectId) then posts[k].(projectId := Some(DefaultProjectId)) else posts[k]
  }

  /** UPDATE posts SET category_id = NULL WHERE category_id = ? */
  function PostsWithoutCategory(posts: map<int, PostRow>, categoryId: int): map<int, PostRow> {
    map k | k in posts :: if posts[k].categoryId == Some(categoryId) then posts[k].(categoryId := None) else posts[k]
  }

  /** delete_post: the post's sparks, then the post. */
  function DeletePost(t: Tables, postId: int): Tables {
    t.(sparks := SparksWithoutPost(t.sparks, postId), posts := t.posts - {postId})
  }

  /** delete_project: nothing for the default project; otherwise its posts move to
      the default project and its connections, sparks and row go. */
  function DeleteProject(t: Tables, projectId: int): Tables {
    if projectId == DefaultProjectId then t
    else
      t.(posts := PostsMovedToDefault(t.posts, projectId),
         connections := ConnectionsWithoutProject(t.connections, projectId),
         sparks := SparksWithoutProject(t.sparks, projectId),
         projects := t.projects - {projectId})
  }

  /** delete_category: its posts lose their category, then its row goes. */
  function DeleteCategory(t: Tables, categoryId: int): Tables {
    t.(posts := PostsWithoutCategory(t.posts, categoryId), categories := t.categories - {categoryId})
  }

  /** After delete_post the post and every spark showing it are gone; every other
      post and spark is kept as it was. */
  lemma DeletePostMeaning(t: Tables, postId: int)
    ensures var t' := DeletePost(t, postId);
      && postId !in t'.posts
      && (forall k :: k in t'.sparks ==> t'.sparks[k].postId != SqlInt(postId))
      && (forall k :: k in t.posts && k != postId ==> k in t'.posts && t'.posts[k] == t.posts[k])
      && (forall k :: k in t.sparks && t.sparks[k].postId != SqlInt(postId) ==> k in t'.sparks && t'.sparks[k] == t.sparks[k])
      && t'.sparks.Keys <= t.sparks.Keys
      && t'.projects == t.projects && t'.categories == t.categories && t'.connections == t.connections
  {
  }

  /** The default project cannot be deleted: the tables stay as they are. */
  lemma DeleteDefaultProjectKeeps(t: Tables)
    ensures DeleteProject(t, DefaultProjectId) == t
  {
  }

  /** Deleting any other project leaves no post, spark, connection or row of it: its
      posts now belong to the default project, and everything else is kept. */
  lemma DeleteProjectMeaning(t: Tables, projectId: int)
    requires projectId != DefaultProjectId
    ensures var t' := DeleteProject(t, projectId);
      && projectId !in t'.projects
      && t'.posts.Keys == t.posts.Keys
      && (forall k :: k in t.posts && t.posts[k].projectId == Some(projectId) ==>
            t'.posts[k] == t.posts[k].(projectId := Some(DefaultProjectId)))
      && (forall k :: k in t.posts && t.posts[k].projectId != Some(projectId) ==> t'.posts[k] == t.posts[k])
      && (forall k :: k in t'.posts ==> t'.posts[k].projectId != Some(projectId))
      && (forall k :: k in t'.sparks ==> t'.sparks[k].projectId != projectId)
      && (forall k :: k in t'.connections ==> t'.connections[k].projectId != projectId)
      && (forall k :: k in t.sparks && t.sparks[k].projectId != projectId ==> k in t'.sparks && t'.sparks[k] == t.sparks[k])
      && (forall k :: k in t.connections && t.connections[k].projectId != projectId ==>
            k in t'.connections && t'.connections[k] == t.connections[k])
      && (forall k :: k in t.projects && k != projectId ==> k in t'.projects && t'.projects[k] == t.projects[k])
      && t'.categories == t.categories
  {
  }

  /** Deleting a project twice is the same as deleting it once. */
  lemma DeleteProjectIdempotent(t: Tables, projectId: int)
    ensures DeleteProject(DeleteProject(t, projectId), projectId) == DeleteProject(t, projectId)
  {
    if projectId != DefaultProjectId {
      var t' := DeleteProject(t, projectId);
      assert PostsMovedToDefault(t'.posts, projectId) == t'.posts;
      assert SparksWithoutProject(t'.sparks, projectId) == t'.sparks;
      assert ConnectionsWithoutProject(t'.connections, projectId) == t'.connections;
    }
  }

  /** After delete_category no post refers to it; other posts are unchanged and only
      its row leaves the categories. */
  lemma DeleteCategoryMeaning(t: Tables, categoryId: int)
    ensures var t' := DeleteCategory(t, categoryId);
      && categoryId !in t'.categories
      && t'.posts.Keys == t.posts.Keys
      && (forall k :: k in t'.posts ==> t'.posts[k].categoryId != Some(categoryId))
      && (forall k :: k in t.posts ==> t'.posts[k] == t.posts[k].(categoryId := if t.posts[k].categoryId == Some(categoryId) then None else t.posts[k].categoryId))
      && (forall k :: k in t.categories && k != categoryId ==> k in t'.categories && t'.categories[k] == t.categories[k])
      && t'.projects == t.projects && t'.sparks == t.sparks && t'.connections == t.connections
  {
  }

  /** The deletes keep the tables valid. */
  lemma DeletesKeepValid(t: Tables, id: int)
    requires TablesValid(t)
    ensures TablesValid(DeletePost(t, id))
    ensures TablesValid(DeleteProject(t, id))
    ensures TablesValid(DeleteCategory(t, id))
  {
    var p := DeleteProject(t, id);
    assert UniqueNames(ProjectNames(p.projects)) by {
      forall a, b | a in ProjectNames(p.projects) && b in ProjectNames(p.projects)
          && ProjectNames(p.projects)[a] == ProjectNames(p.projects)[b]
        ensures a == b
      {
        assert ProjectNames(t.projects)[a] == ProjectNames(t.projects)[b];
      }
    }
    assert ProjectNames(DeletePost(t, id).projects) == ProjectNames(t.projects);
    assert ProjectNames(DeleteCategory(t, id).projects) == ProjectNames(t.projects);
  }

  /** The database file, as a connection sees it. */
  class VaultDb {
    var projects: map<int, ProjectRow>
    var nextProjectId: int
    var categories: map<int, string>
    var nextCategoryId: int
    var posts: map<int, PostRow>
    var sparks: map<int, SparkRow>
    var nextSparkId: int
    var connections: map<int, ConnectionRow>
    var nextConnectionId: int

    function State(): Tables
      reads this
    {
      Tables(projects, nextProjectId, categories, nextCategoryId, posts,
             sparks, nextSparkId, connections, nextConnectionId)
    }

    predicate Valid()
      reads this
    {
      TablesValid(State())
    }

    /** A connection to a database holding the given tables. */
    constructor(t: Tables)
      ensures State() == t
    {
      projects, nextProjectId := t.projects, t.nextProjectId;
      categories, nextCategoryId := t.categories, t.nextCategoryId;
      posts := t.posts;
      sparks, nextSparkId := t.sparks, t.nextSparkId;
      connections, nextConnectionId := t.connections, t.nextConnectionId;
    }

    /** Puts back a state taken earlier; rollback() of the open transaction. */
    method Restore(t: Tables)
      modifies this
      ensures State() == t
    {
      projects, nextProjectId := t.projects, t.nextProjectId;
      categories, nextCategoryId := t.categories, t.nextCategoryId;
      posts := t.posts;
      sparks, nextSparkId := t.sparks, t.nextSparkId;
      connections, nextConnectionId := t.connections, t.nextConnectionId;
    }

    /** get_or_create_project_id */
    method GetOrCreateProjectId(name: Option<string>) returns (id: int)
      requires Valid()
      modifies this
      ensures (id, State()) == GetOrCreateProject(old(State()), name)
      ensures Valid()
    {
      if name.None? || IsBlank(name.value) {
        return DefaultProjectId;
      }
      GetOrCreateProjectMeaning(State(), name);
      if exists k :: k in projects && projects[k].name == name.value {
        var k :| k in projects && projects[k].name == name.value;
        IdNamedUnique(ProjectNames(projects), name.value, k);
        return k;
      }
      id := nextProjectId;
      projects := projects[id := ProjectRow(name.value, None)];
      nextProjectId := nextProjectId + 1;
    }

    /** get_or_create_category_id */
    method GetOrCreateCategoryId(name: Option<string>) returns (id: Option<int>)
      requires Valid()
      modifies this
      ensures (id, State()) == GetOrCreateCategory(old(State()), name)
      ensures Valid()
    {
      if name.None? || IsBlank(name.value) {
        return None;
      }
      GetOrCreateCategoryMeaning(State(), name);
      if exists k :: k in categories && categories[k] == name.value {
        var k :| k in categories && categories[k] == name.value;
        IdNamedUnique(categories, name.value, k);
        return Some(k);
      }
      id := Some(nextCategoryId);
      categories := categories[nextCategoryId := name.value];
      nextCategoryId := nextCategoryId + 1;
    }

    /** get_all_posts: the ids of the posts the built query selects. */
    method GetAllPosts(searchTerm: Option<string>, projectId: Option<int>) returns (ids: set<int>)
      ensures ids == SelectPosts(State(), PostConditions(searchTerm, projectId))
    {
      var suffix, conditions, params := BuildPostsQuery(searchTerm, projectId);
      ids := set k | k in posts && AllHold(conditions, posts[k]);
    }

    /** delete_post */
    method DeletePostById(postId: int)
      requires Valid()
      modifies this
      ensures State() == DeletePost(old(State()), postId)
      ensures Valid()
    {
      DeletesKeepValid(State(), postId);
      sparks := SparksWithoutPost(sparks, postId);
      posts := posts - {postId};
    }

    /** delete_project */
    method DeleteProjectById(projectId: int)
      requires Valid()
      modifies this
      ensures State() == DeleteProject(old(State()), projectId)
      ensures Valid()
    {
      if projectId == DefaultProjectId {
        return;
      }
      DeletesKeepValid(State(), projectId);
      posts := PostsMovedToDefault(posts, projectId);
      connections := ConnectionsWithoutProject(connections, projectId);
      sparks := SparksWithoutProject(sparks, projectId);
      projects := projects - {projectId};
    }

    /** delete_category */
    method DeleteCategoryById(categoryId: int)
      requires Valid()
      modifies this
      ensures State() == DeleteCategory(old(State()), categoryId)
      ensures Valid()
    {
      DeletesKeepValid(State(), categoryId);
      posts := PostsWithoutCategory(posts, categoryId);
      categories := categories - {categoryId};
    }
  }

  /** The texts and parameters of one or two conditions. */
  lemma OneCondition(c: Condition)
    ensures Clauses([c]) == [ConditionSql(c)]
    ensures FlatMap([c], ConditionParams) == ConditionParams(c)
  {
    assert [c][..0] == [];
    assert FlatMapUpTo([c], ConditionParams, 1) == FlatMapUpTo([c], ConditionParams, 0) + ConditionParams(c);
  }

  lemma TwoConditions(c: Condition, d: Condition)
    ensures Clauses([c, d]) == [ConditionSql(c), ConditionSql(d)]
    ensures FlatMap([c, d], ConditionParams) == ConditionParams(c) + ConditionParams(d)
  {
    assert [c, d][..1] == [c];
    OneCondition(c);
    FlatMapSnoc([c], d, ConditionParams);
    assert [c] + [d] == [c, d];
  }

  /** get_all_posts's query building: the query text, the conditions it holds, and
      the parameters in the order of their placeholders. */
  method BuildPostsQuery(searchTerm: Option<string>, projectId: Option<int>)
    returns (suffix: string, conditions: seq<Condition>, params: seq<Param>)
    ensures conditions == PostConditions(searchTerm, projectId)
    ensures suffix == QuerySuffix(conditions)
    ensures params == FlatMap(conditions, ConditionParams)
  {
    var clauses;
    conditions, clauses, params := CollectConditions(searchTerm, projectId);
    suffix := RenderSuffix(conditions, clauses);
  }

  /** The conditions and params lists of get_all_posts, with the condition texts. */
  method CollectConditions(searchTerm: Option<string>, projectId: Option<int>)
    returns (conditions: seq<Condition>, clauses: seq<string>, params: seq<Param>)
    ensures conditions == PostConditions(searchTerm, projectId)
    ensures clauses == Clauses(conditions)
    ensures params == FlatMap(conditions, ConditionParams)
  {
    conditions, clauses, params := [], [], [];
    if projectId.Some? && projectId.value != 0 {
      if projectId.value == DefaultProjectId {
        conditions, clauses := conditions + [ProjectOrNull(projectId.value)], clauses + [ProjectOrNullSql];
      } else {
        conditions, clauses := conditions + [ProjectIs(projectId.value)], clauses + [ProjectIsSql];
      }
      params := params + [PInt(projectId.value)];
    }
    assert conditions == ProjectConditions(projectId);
    if searchTerm.Some? && !IsBlank(searchTerm.value) {
      var like := LikePattern(searchTerm.value);
      conditions, clauses := conditions + [Search(searchTerm.value)], clauses + [SearchSql];
      params := params + [PText(like), PText(like), PText(like)];
      assert SearchConditions(searchTerm) == [Search(searchTerm.value)];
    } else {
      assert SearchConditions(searchTerm) == [];
      assert conditions + [] == conditions;
    }
    if |conditions| == 1 {
      assert conditions == [conditions[0]];
      OneCondition(conditions[0]);
    } else if |conditions| == 2 {
      assert conditions == [conditions[0], conditions[1]];
      TwoConditions(conditions[0], conditions[1]);
    }
  }

  /** The WHERE clause, when there are conditions, and the ordering. */
  method RenderSuffix(ghost conditions: seq<Condition>, clauses: seq<string>) returns (suffix: string)
    requires clauses == Clauses(conditions)
    ensures suffix == QuerySuffix(conditions)
  {
    suffix := "";
    if clauses != [] {
      suffix := suffix + WhereKeyword + Join(clauses, AndKeyword);
    }
    suffix := suffix + OrderByNewest;
  }
}
