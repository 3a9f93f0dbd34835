/** The desktop app's file operations: copying the database to a backup and back, and
    writing a Markdown briefing of a list of posts. The file dialogs are given as the
    path the user chose ("" when the dialog was cancelled), and failures of the
    operating system as the text of the error it raised. */
module FileHandler {
  import opened Wrappers
  import opened Text
  import opened Json

  /** The database file, relative to the working directory. */
  const DatabasePath := "curators_vault.db"

  const BackupCancelled := "Backup cancelled."
  const BackupSucceeded := "Backup successful: "
  const BackupFailed := "Backup failed: "
  const RestoreCancelled := "Restore cancelled."
  const RestoreSucceeded := "Restore successful from "
  const RestoreFailed := "Restore failed: "
  const NoPosts := "No posts to create a briefing from."
  const BriefingCancelled := "Briefing save cancelled."
  const BriefingSaved := "Briefing saved: "
  const BriefingFailed := "Failed to save briefing: "

  /** The files on disk, by path. */
  class FileSystem {
    var files: map<string, string>

    constructor(files: map<string, string>)
      ensures this.files == files
    {
      this.files := files;
    }
  }

  // Copying a file.

  /** Why shutil.copyfile raised. */
  datatype CopyError =
    | NoSuchFile(path: string)
    | SameFile(path: string)
    | OsError(text: string)  // any other failure of the operating system, as reported

  /** str() of the exception. */
  function CopyErrorText(e: CopyError): string {
    match e
    case NoSuchFile(p) => "[Errno 2] No such file or directory: '" + p + "'"
    case SameFile(p) => "'" + p + "' and '" + p + "' are the same file"
    case OsError(t) => t
  }

  /** shutil.copyfile(src, dst): dst gets src's contents. */
  function Copy(files: map<string, string>, src: string, dst: string, osError: Option<string>): (r: Result<map<string, string>, CopyError>)
    ensures r.Ok? <==> src in files && src != dst && osError.None?
    ensures r.Ok? ==> r.value == files[dst := files[src]]
  {
    if src == dst then Err(SameFile(src))
    else if src !in files then Err(NoSuchFile(src))
    else if osError.Some? then Err(OsError(osError.value))
    else Ok(files[dst := files[src]])
  }

  /** The outcome of an operation: success, the message shown, and the files after. */
  datatype Outcome = Outcome(ok: bool, message: string, files: map<string, string>)

  /** backup_database, with the path chosen in the save dialog. */
  function Backup(files: map<string, string>, chosen: string, osError: Option<string>): Outcome {
    if chosen == "" then Outcome(false, BackupCancelled, files)
    else
      match Copy(files, DatabasePath, chosen, osError)
      case Ok(files') => Outcome(true, BackupSucceeded + Basename(chosen), files')
      case Err(e) => Outcome(false, BackupFailed + CopyErrorText(e), files)
  }

  /** restore_database, with the path chosen in the open dialog. */
  function Restore(files: map<string, string>, chosen: string, osError: Option<string>): Outcome {
    if chosen == "" then Outcome(false, RestoreCancelled, files)
    else
      match Copy(files, chosen, DatabasePath, osError)
      case Ok(files') => Outcome(true, RestoreSucceeded + Basename(chosen), files')
      case Err(e) => Outcome(false, RestoreFailed + CopyErrorText(e), files)
  }

  /** A cancelled dialog copies nothing; a failed copy changes nothing; a successful
      backup writes the database's contents to the chosen file and nothing else. */
  lemma BackupMeaning(files: map<string, string>, chosen: string, osError: Option<string>)
    ensures var o := Backup(files, chosen, osError);
      && (chosen == "" ==> o == Outcome(false, BackupCancelled, files))
      && (!o.ok ==> o.files == files)
      && (o.ok <==> chosen != "" && chosen != DatabasePath && DatabasePath in files && osError.None?)
      && (o.ok ==> o.files == files[chosen := files[DatabasePath]] && o.message == BackupSucceeded + Basename(chosen))
  {
  }

  lemma RestoreMeaning(files: map<string, string>, chosen: string, osError: Option<string>)
    ensures var o := Restore(files, chosen, osError);
      && (chosen == "" ==> o == Outcome(false, RestoreCancelled, files))
      && (!o.ok ==> o.files == files)
      && (o.ok <==> chosen != "" && chosen != DatabasePath && chosen in files && osError.None?)
      && (o.ok ==> o.files == files[DatabasePath := files[chosen]] && o.message == RestoreSucceeded + Basename(chosen))
  {
  }

  /** Restoring the backup just made gives back the database as it was backed up,
      however the database changed in between. */
  lemma BackupThenRestore(files: map<string, string>, chosen: string, later: string)
    requires Backup(files, chosen, None).ok
    ensures var backedUp := Backup(files, chosen, None).files;
      var restored := Restore(backedUp[DatabasePath := later], chosen, None);
      restored.ok && restored.files[DatabasePath] == files[DatabasePath]
  {
    BackupMeaning(files, chosen, None);
  }

  /** Without a database file the backup reports the missing file. */
  lemma BackupWithoutDatabase(files: map<string, string>, chosen: string)
    requires chosen != "" && chosen != DatabasePath && DatabasePath !in files
    ensures Backup(files, chosen, None) ==
      Outcome(false, BackupFailed + "[Errno 2] No such file or directory: '" + DatabasePath + "'", files)
  {
  }

  /** backup_database */
  method BackupDatabase(fs: FileSystem, chosen: string, osError: Option<string>) returns (ok: bool, message: string)
    modifies fs
    ensures Outcome(ok, message, fs.files) == Backup(old(fs.files), chosen, osError)
  {
    if chosen == "" {
      return false, BackupCancelled;
    }
    var copied := Copy(fs.files, DatabasePath, chosen, osError);
    if copied.Err? {
      return false, BackupFailed + CopyErrorText(copied.error);
    }
    fs.files := copied.value;
    ok, message := true, BackupSucceeded + Basename(chosen);
  }

  /** restore_database */
  method RestoreDatabase(fs: FileSystem, chosen: string, osError: Option<string>) returns (ok: bool, message: string)
    modifies fs
    ensures Outcome(ok, message, fs.files) == Restore(old(fs.files), chosen, osError)
  {
    if chosen == "" {
      return false, RestoreCancelled;
    }
    var copied := Copy(fs.files, chosen, DatabasePath, osError);
    if copied.Err? {
      return false, RestoreFailed + CopyErrorText(copied.error);
    }
    fs.files := copied.value;
    ok, message := true, RestoreSucceeded + Basename(chosen);
  }

  // The briefing.

  const AllPosts := "All Posts"
  const Separator := "---\n\n"

  /** The first line: the search term, or "All Posts" when there is none. */
  function Title(searchTerm: string): string {
    "# X Briefing: " + (if searchTerm != "" then searchTerm else AllPosts)
  }

  function Header(searchTerm: string): string {
    Title(searchTerm) + "\n\n"
  }

  /** post.get(key, default), as an f-string renders it. */
  function FieldText(post: seq<Field>, key: string, default: string): string {
    PyStr(Lookup(post, key).GetOr(JStr(default)))
  }

  function AuthorLine(post: seq<Field>): string {
    "## Post by: " + FieldText(post, "author", "N/A") + "\n"
  }

  function UrlLine(post: seq<Field>): string {
    "**URL:** " + FieldText(post, "url", "N/A") + "\n\n"
  }

  /** A fenced block under a heading. */
  function Block(heading: string, body: string): string {
    "### " + heading + "\n```\n" + body + "\n```\n\n"
  }

  function TextBlock(post: seq<Field>): string {
    Block("Text", FieldText(post, "post_text", ""))
  }

  function NotesBlock(post: seq<Field>): string {
    Block("Notes", FieldText(post, "notes", ""))
  }

  /** The five pieces the loop appends for one post. */
  function PostSection(post: seq<Field>): string {
    AuthorLine(post) + UrlLine(post) + TextBlock(post) + NotesBlock(post) + Separator
  }

  /** The whole briefing: the header, then each post's section in order. */
  function Briefing(posts: seq<seq<Field>>, searchTerm: string): string {
    Header(searchTerm) + FlatMap(posts, PostSection)
  }

  /** The loop of create_briefing. */
  method BuildBriefing(posts: seq<seq<Field>>, searchTerm: string) returns (content: string)
    ensures content == Briefing(posts, searchTerm)
  {
    var title := Title(searchTerm);
    content := title + "\n\n";
    for i := 0 to |posts|
      invariant content == Header(searchTerm) + FlatMapUpTo(posts, PostSection, i)
    {
      content := AppendSection(content, posts[i]);
      AppendAssoc(Header(searchTerm), FlatMapUpTo(posts, PostSection, i), PostSection(posts[i]));
    }
  }

  /** One pass of the loop: the five appends for a post. */
  method AppendSection(content: string, post: seq<Field>) returns (r: string)
    ensures r == content + PostSection(post)
  {
    r := content + AuthorLine(post);
    r := r + UrlLine(post);
    r := r + TextBlock(post);
    r := r + NotesBlock(post);
    r := r + Separator;
    AppendFive(content, AuthorLine(post), UrlLine(post), TextBlock(post), NotesBlock(post), Separator);
  }

  lemma AppendFive(c: string, a: string, b: string, d: string, e: string, f: string)
    ensures c + a + b + d + e + f == c + (a + b + d + e + f)
  {
  }

  lemma AppendAssoc(a: string, b: string, c: string)
    ensures a + b + c == a + (b + c)
  {
  }

  /** create_briefing, with the path chosen in the save dialog and the error, if
      any, that writing the file raised. */
  function CreateBriefing(files: map<string, string>, posts: seq<seq<Field>>, searchTerm: string,
                          chosen: string, writeError: Option<string>): Outcome {
    if |posts| == 0 then Outcome(false, NoPosts, files)
    else if chosen == "" then Outcome(false, BriefingCancelled, files)
    else if writeError.Some? then Outcome(false, BriefingFailed + writeError.value, files)
    else Outcome(true, BriefingSaved + Basename(chosen), files[chosen := Briefing(posts, searchTerm)])
  }

  /** No posts, no dialog and no file; a cancelled dialog, no file; otherwise the
      chosen file holds the briefing and nothing else changes. */
  lemma CreateBriefingMeaning(files: map<string, string>, posts: seq<seq<Field>>, searchTerm: string,
                              chosen: string, writeError: Option<string>)
    ensures var o := CreateBriefing(files, posts, searchTerm, chosen, writeError);
      && (|posts| == 0 ==> o == Outcome(false, NoPosts, files))
      && (|posts| > 0 && chosen == "" ==> o == Outcome(false, BriefingCancelled, files))
      && (o.ok <==> |posts| > 0 && chosen != "" && writeError.None?)
      && (!o.ok ==> o.files == files)
      && (o.ok ==> o.files.Keys == files.Keys + {chosen} && o.files[chosen] == Briefing(posts, searchTerm)
                   && forall p :: p in files && p != chosen ==> o.files[p] == files[p])
  {
  }

  /** create_briefing */
  method CreateBriefingFile(fs: FileSystem, posts: seq<seq<Field>>, searchTerm: string,
                            chosen: string, writeError: Option<string>) returns (ok: bool, message: string)
    modifies fs
    ensures Outcome(ok, message, fs.files) == CreateBriefing(old(fs.files), posts, searchTerm, chosen, writeError)
  {
    if |posts| == 0 {
      return false, NoPosts;
    }
    if chosen == "" {
      return false, BriefingCancelled;
    }
    var content := BuildBriefing(posts, searchTerm);
    if writeError.Some? {
      return false, BriefingFailed + writeError.value;
    }
    fs.files := fs.files[chosen := content];
    ok, message := true, BriefingSaved + Basename(chosen);
  }

  // What a briefing holds.

  /** The briefing opens with its title and a blank line. */
  lemma BriefingStartsWithTitle(posts: seq<seq<Field>>, searchTerm: string)
    ensures StartsWith(Briefing(posts, searchTerm), Title(searchTerm) + "\n\n")
    ensures searchTerm == "" ==> Title(searchTerm) == "# X Briefing: All Posts"
  {
    StartsWithConcat(Header(searchTerm), FlatMap(posts, PostSection));
  }

  /** One more post adds its section at the end. */
  lemma BriefingSnoc(posts: seq<seq<Field>>, post: seq<Field>, searchTerm: string)
    ensures Briefing(posts + [post], searchTerm) == Briefing(posts, searchTerm) + PostSection(post)
  {
    FlatMapSnoc(posts, post, PostSection);
  }

  /** The pieces before k form a prefix of the pieces before any later n. */
  lemma {:induction false} UpToGrows<A>(xs: seq<A>, f: A -> string, k: nat, n: nat)
    requires k <= n <= |xs|
    ensures StartsWith(FlatMapUpTo(xs, f, n), FlatMapUpTo(xs, f, k))
    decreases n
  {
    if k < n {
      UpToGrows(xs, f, k, n - 1);
      StartsWithExtend(FlatMapUpTo(xs, f, n - 1), f(xs[n - 1]), FlatMapUpTo(xs, f, k));
    } else {
      assert FlatMapUpTo(xs, f, n)[..|FlatMapUpTo(xs, f, k)|] == FlatMapUpTo(xs, f, k);
    }
  }

  /** After a header, element i's piece follows the pieces of the elements before it. */
  lemma PieceAt<A>(header: string, xs: seq<A>, f: A -> string, i: nat)
    requires i < |xs|
    ensures OccursAt(header + FlatMap(xs, f), f(xs[i]), |header| + |FlatMapUpTo(xs, f, i)|)
  {
    var before := FlatMapUpTo(xs, f, i);
    var piece := f(xs[i]);
    UpToGrows(xs, f, i + 1, |xs|);
    var all := FlatMap(xs, f);
    assert all[..|before| + |piece|] == before + piece;
    var b := header + all;
    var off := |header| + |before|;
    assert b[off..off + |piece|] == all[|before|..|before| + |piece|];
    assert (before + piece)[|before|..] == piece;
  }

  /** Post i's section sits in the briefing right after the sections of the posts
      before it, so the sections come in the order of the posts. */
  lemma SectionInOrder(posts: seq<seq<Field>>, searchTerm: string, i: nat)
    requires i < |posts|
    ensures OccursAt(Briefing(posts, searchTerm), PostSection(posts[i]),
                     |Header(searchTerm)| + |FlatMapUpTo(posts, PostSection, i)|)
  {
    PieceAt(Header(searchTerm), posts, PostSection, i);
  }

  /** A section ends with the rule and opens with the author line. */
  lemma SectionEnds(post: seq<Field>)
    ensures EndsWith(PostSection(post), Separator)
    ensures StartsWith(PostSection(post), AuthorLine(post))
  {
    FirstAndLast(AuthorLine(post), UrlLine(post), TextBlock(post), NotesBlock(post), Separator);
  }

  lemma FirstAndLast(a: string, b: string, c: string, d: string, e: string)
    ensures EndsWith(a + b + c + d + e, e) && StartsWith(a + b + c + d + e, a)
  {
    var s := a + b + c + d + e;
    assert s[|s| - |e|..] == e;
    assert s[..|a|] == a;
  }

  /** A missing author or URL is shown as 'N/A', missing text or notes as nothing,
      and an author stored as NULL as 'None'. */
  lemma SectionDefaults(post: seq<Field>)
    ensures Lookup(post, "author").None? ==> FieldText(post, "author", "N/A") == "N/A"
    ensures Lookup(post, "url").None? ==> FieldText(post, "url", "N/A") == "N/A"
    ensures Lookup(post, "post_text").None? ==> FieldText(post, "post_text", "") == ""
    ensures Lookup(post, "notes").None? ==> FieldText(post, "notes", "") == ""
    ensures Lookup(post, "author") == Some(JNull) ==> FieldText(post, "author", "N/A") == "None"
  {
  }

  /** A briefing of at least one post ends with the rule. */
  lemma BriefingEndsWithRule(posts: seq<seq<Field>>, searchTerm: string)
    requires |posts| > 0
    ensures EndsWith(Briefing(posts, searchTerm), Separator)
  {
    var n := |posts|;
    SectionEnds(posts[n - 1]);
    var b := Briefing(posts, searchTerm);
    var prefix := Header(searchTerm) + FlatMapUpTo(posts, PostSection, n - 1);
    assert b == prefix + PostSection(posts[n - 1]);
    assert b[|b| - |Separator|..] == PostSection(posts[n - 1])[|PostSection(posts[n - 1])| - |Separator|..];
  }
}
