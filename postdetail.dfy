/** The desktop app's post form: the author line split into name and handle labels
    and joined back when the form is read, the reset of the form, the loading of a
    stored or scraped post into it, and the test that decides when a pasted URL is
    fetched. */
module PostDetail {
  import opened Wrappers
  import opened Text

  const DefaultAuthorName := "Author Name"
  const DefaultAuthorHandle := "@author_handle"
  /** The author line assumed for a post without one: "Author Name (@author_handle)". */
  const DefaultAuthor := FormatAuthor(DefaultAuthorName, DefaultAuthorHandle)
  const DefaultProjectName := "Uncategorized Ideas"
  const StartTitle := "Post Details"
  const SaveTitle := "Add New Post"
  const EditTitle := "Edit Post Details"

  // The author line.

  /** The stored author line the form shows: "name (handle)". */
  function FormatAuthor(name: string, handle: string): string {
    name + " (" + handle + ")"
  }

  /** The split in populate_form as written: at the last '(', the stripped name before
      it and "@" before the stripped rest with every ')' removed; with no '(' the
      whole line is the name and the handle is empty. */
  function ParseAuthor(full: string): (string, string) {
    match LastIndexOf(full, '(')
    case None => (full, "")
    case Some(i) => (Strip(full[..i]), "@" + Strip(RemoveChar(full[i + 1..], ')')))
  }

  /** The split as evidently intended: a handle that already starts with '@' is kept
      as it is, so that reading the form back gives the line that was loaded. */
  function ParseAuthorFixed(full: string): (string, string) {
    match LastIndexOf(full, '(')
    case None => (full, "")
    case Some(i) =>
      var handle := Strip(RemoveChar(full[i + 1..], ')'));
      (Strip(full[..i]), if StartsWith(handle, "@") then handle else "@" + handle)
  }

  /** Where the handle's parenthesis is in a formatted line whose handle has none. */
  lemma FormattedParts(name: string, handle: string)
    requires '(' !in handle && ')' !in handle
    ensures var s := FormatAuthor(name, handle);
      && LastIndexOf(s, '(') == Some(|name| + 1)
      && s[..|name| + 1] == name + " "
      && RemoveChar(s[|name| + 2..], ')') == handle
  {
    var s := FormatAuthor(name, handle);
    var i := |name| + 1;
    assert s[i] == '(';
    forall j | i < j < |s|
      ensures s[j] != '('
    {
      if j < |s| - 1 {
        assert s[j] == handle[j - i - 1];
      }
    }
    assert s[..i] == name + " ";
    assert s[i + 1..] == handle + [')'];
    RemoveCharSnoc(handle, ')');
    RemoveCharAbsent(handle, ')');
  }

  /** Splitting a formatted line as written: the name comes back stripped and the
      handle stripped behind one more '@'. */
  lemma FormatThenParse(name: string, handle: string)
    requires '(' !in handle && ')' !in handle
    ensures ParseAuthor(FormatAuthor(name, handle)) == (Strip(name), "@" + Strip(handle))
  {
    FormattedParts(name, handle);
    StripTrailingSpace(name);
  }

  /** A post loaded with no author, or one whose handle label already had its '@',
      shows its handle with a second '@', and saving the form stores that. */
  lemma HandleGainsAt(name: string, handle: string)
    requires '(' !in handle && ')' !in handle && Stripped(handle)
    ensures ParseAuthor(FormatAuthor(name, handle)).1 == "@" + handle
    ensures ParseAuthor(FormatAuthor(name, handle)).1 != handle
  {
    FormatThenParse(name, handle);
    StripOfStripped(handle);
  }

  /** The placeholder labels are stripped and the handle is a well-formed one. */
  lemma DefaultLabelsWellFormed()
    ensures Stripped(DefaultAuthorName) && Stripped(DefaultAuthorHandle) && StartsWith(DefaultAuthorHandle, "@")
    ensures '(' !in DefaultAuthorHandle && ')' !in DefaultAuthorHandle
  {
  }

  /** The default author line shows the handle "@@author_handle". */
  lemma DefaultAuthorHandleDoubled()
    ensures ParseAuthor(DefaultAuthor) == (DefaultAuthorName, "@" + DefaultAuthorHandle)
  {
    DefaultLabelsWellFormed();
    FormatThenParse(DefaultAuthorName, DefaultAuthorHandle);
    StripOfStripped(DefaultAuthorName);
    StripOfStripped(DefaultAuthorHandle);
  }

  /** The corrected split inverts the formatting for stripped labels whose handle
      starts with '@' and has no parentheses. */
  lemma FormatThenParseFixed(name: string, handle: string)
    requires Stripped(name) && Stripped(handle) && StartsWith(handle, "@")
    requires '(' !in handle && ')' !in handle
    ensures ParseAuthorFixed(FormatAuthor(name, handle)) == (name, handle)
  {
    FormattedParts(name, handle);
    StripTrailingSpace(name);
    StripOfStripped(name);
    StripOfStripped(handle);
  }

  /** The corrected split differs from the written one only for handles that already
      start with '@'. */
  lemma FixedAgreesWithoutAt(full: string)
    requires LastIndexOf(full, '(').Some?
    requires !StartsWith(Strip(RemoveChar(full[LastIndexOf(full, '(').value + 1..], ')')), "@")
    ensures ParseAuthorFixed(full) == ParseAuthor(full)
  {
  }

  /** The URL entry after populate_form as written: the form is cleared without its
      URL and the post's URL is inserted at position 0, in front of what the entry
      already held. */
  function UrlAfterPopulate(current: string, url: string): string {
    url + current
  }

  /** Selecting a post while another post's URL is shown leaves both in the entry. */
  lemma UrlsPileUp(current: string, url: string)
    requires current != ""
    ensures UrlAfterPopulate(current, url) != url
    ensures UrlAfterPopulate(current, url) == url + current
  {
    assert |UrlAfterPopulate(current, url)| > |url|;
  }

  // The URL test.

  /** `("x.com" in url or "twitter.com" in url) and "/status/" in url` */
  predicate StatusUrl(url: string) {
    (Contains(url, "x.com") || Contains(url, "twitter.com")) && Contains(url, "/status/")
  }

  /** Any status link on x.com passes, and so does any URL that only has "x.com"
      somewhere in it, such as a host ending in it. */
  lemma StatusLinkPasses(prefix: string, middle: string, rest: string)
    ensures StatusUrl(prefix + "x.com" + middle + "/status/" + rest)
  {
    var url := prefix + "x.com" + middle + "/status/" + rest;
    var i := |prefix|;
    assert url[i..i + 5] == "x.com";
    ContainsAt(url, "x.com", i);
    var j := |prefix| + 5 + |middle|;
    assert url[j..j + 8] == "/status/";
    ContainsAt(url, "/status/", j);
  }

  /** A URL without "/status/" is never fetched. */
  lemma NoStatusNoFetch(url: string)
    requires forall i :: 0 <= i <= |url| ==> !OccursAt(url, "/status/", i)
    ensures !StatusUrl(url)
  {
    ContainsIff(url, "/status/");
  }

  // The form.

  /** The action buttons shown: Save alone, or Update, Delete and New. */
  datatype Mode = SaveMode | EditMode

  /** What the widgets show. avatarSource is the URL whose image is being loaded
      (the image is set when it arrives), or None for the default image. */
  datatype FormState = FormState(
    title: string, url: string, postText: string, notes: string,
    authorName: string, authorHandle: string, avatarSource: Option<string>,
    projectName: string, categoryName: string, mode: Mode)

  /** A stored post as populate_form receives it; None for a key the dict lacks. */
  datatype PostData = PostData(
    url: Option<string>, postText: Option<string>, notes: Option<string>,
    author: Option<string>, projectName: Option<string>, categoryName: Option<string>,
    avatarUrl: Option<string>)

  /** What the scraper found for a URL. */
  datatype ScrapedData = ScrapedData(authorName: string, authorHandle: string, postText: string, avatarUrl: Option<string>)

  /** The dict get_form_data returns. */
  datatype FormData = FormData(
    author: string, postText: string, notes: string, url: string,
    categoryName: string, projectName: string)

  /** clear_form: every widget back to its empty or placeholder state and the Save
      mode, the URL kept when asked. */
  function Cleared(s: FormState, clearUrl: bool): FormState {
    FormState(SaveTitle, if clearUrl then "" else s.url, "", "", DefaultAuthorName, DefaultAuthorHandle,
              None, "", "", SaveMode)
  }

  /** populate_form as written: the form cleared but for its URL, the post's URL
      inserted in front of what the entry held, and the author split by ParseAuthor. */
  function Populated(s: FormState, d: PostData): FormState {
    var (name, handle) := ParseAuthor(d.author.GetOr(DefaultAuthor));
    Cleared(s, false).(
      title := EditTitle, mode := EditMode,
      url := UrlAfterPopulate(s.url, d.url.GetOr("")), postText := d.postText.GetOr(""), notes := d.notes.GetOr(""),
      authorName := name, authorHandle := handle,
      projectName := d.projectName.GetOr(DefaultProjectName), categoryName := d.categoryName.GetOr(""),
      avatarSource := if d.avatarUrl.Some? && d.avatarUrl.value != "" then d.avatarUrl else None)
  }

  /** populate_form corrected: the URL entry replaced and the author split as intended. */
  function PopulatedFixed(s: FormState, d: PostData): FormState {
    var (name, handle) := ParseAuthorFixed(d.author.GetOr(DefaultAuthor));
    Cleared(s, false).(
      title := EditTitle, mode := EditMode,
      url := d.url.GetOr(""), postText := d.postText.GetOr(""), notes := d.notes.GetOr(""),
      authorName := name, authorHandle := handle,
      projectName := d.projectName.GetOr(DefaultProjectName), categoryName := d.categoryName.GetOr(""),
      avatarSource := if d.avatarUrl.Some? && d.avatarUrl.value != "" then d.avatarUrl else None)
  }

  /** populate_scraped_data: the scraped author, text and avatar over a form cleared
      but for its URL. */
  function ScrapedInto(s: FormState, d: ScrapedData): FormState {
    Cleared(s, false).(
      authorName := d.authorName, authorHandle := d.authorHandle, postText := d.postText,
      avatarSource := if d.avatarUrl.Some? && d.avatarUrl.value != "" then d.avatarUrl else None)
  }

  /** get_form_data */
  function ReadBack(s: FormState): FormData {
    FormData(FormatAuthor(s.authorName, s.authorHandle), s.postText, s.notes, s.url, s.categoryName, s.projectName)
  }

  /** Clearing twice is clearing once, and a clear that keeps the URL keeps it. */
  lemma ClearedMeaning(s: FormState, clearUrl: bool)
    ensures Cleared(Cleared(s, clearUrl), clearUrl) == Cleared(s, clearUrl)
    ensures !clearUrl ==> Cleared(s, clearUrl).url == s.url
    ensures clearUrl ==> Cleared(s, clearUrl).url == ""
    ensures ReadBack(Cleared(s, clearUrl)).author == DefaultAuthor
    ensures Cleared(s, clearUrl).mode == SaveMode
  {
  }

  /** As written, loading a stored post and reading the form back gives the post's
      text fields, its URL in front of the one the entry held, and its handle behind
      one more '@'; the form is in Edit mode. */
  lemma PopulateAsWrittenReadBack(s: FormState, d: PostData, name: string, handle: string)
    requires d.author == Some(FormatAuthor(name, handle))
    requires Stripped(name) && Stripped(handle)
    requires '(' !in handle && ')' !in handle
    ensures ReadBack(Populated(s, d)) ==
      FormData(FormatAuthor(name, "@" + handle), d.postText.GetOr(""), d.notes.GetOr(""), d.url.GetOr("") + s.url,
               d.categoryName.GetOr(""), d.projectName.GetOr(DefaultProjectName))
    ensures Populated(s, d).mode == EditMode
  {
    FormatThenParse(name, handle);
    StripOfStripped(name);
    StripOfStripped(handle);
  }

  /** As written, selecting a post while another post's URL is shown leaves both URLs
      in the entry, so the form no longer shows the selected post's URL. */
  lemma PopulateUrlsPileUp(s: FormState, d: PostData)
    requires s.url != ""
    ensures Populated(s, d).url == d.url.GetOr("") + s.url
    ensures Populated(s, d).url != d.url.GetOr("")
  {
    UrlsPileUp(s.url, d.url.GetOr(""));
  }

  /** As written, a post with no author key shows the handle "@@author_handle", and
      the line read back is not the default line. */
  lemma PopulateWithoutAuthorDoubled(s: FormState, d: PostData)
    requires d.author.None?
    ensures Populated(s, d).authorName == DefaultAuthorName
    ensures Populated(s, d).authorHandle == "@" + DefaultAuthorHandle
    ensures ReadBack(Populated(s, d)).author != DefaultAuthor
  {
    DefaultAuthorHandleDoubled();
    assert |ReadBack(Populated(s, d)).author| == |DefaultAuthor| + 1;
  }

  /** The written and corrected populate agree when the entry was empty and the
      handle of the loaded line has no '@' of its own. */
  lemma PopulatedAgreesOnFreshEntry(s: FormState, d: PostData)
    requires s.url == "" && d.author.Some?
    requires LastIndexOf(d.author.value, '(').Some?
    requires !StartsWith(Strip(RemoveChar(d.author.value[LastIndexOf(d.author.value, '(').value + 1..], ')')), "@")
    ensures Populated(s, d) == PopulatedFixed(s, d)
  {
    FixedAgreesWithoutAt(d.author.value);
    assert UrlAfterPopulate(s.url, d.url.GetOr("")) == d.url.GetOr("");
  }

  /** With the corrections, loading a stored post and reading the form back gives the
      post's fields, its author line included when the line is well formed; the form
      is in Edit mode. */
  lemma PopulateThenReadBack(s: FormState, d: PostData, name: string, handle: string)
    requires d.author == Some(FormatAuthor(name, handle))
    requires Stripped(name) && Stripped(handle) && StartsWith(handle, "@")
    requires '(' !in handle && ')' !in handle
    ensures ReadBack(PopulatedFixed(s, d)) ==
      FormData(FormatAuthor(name, handle), d.postText.GetOr(""), d.notes.GetOr(""), d.url.GetOr(""),
               d.categoryName.GetOr(""), d.projectName.GetOr(DefaultProjectName))
    ensures PopulatedFixed(s, d).mode == EditMode
  {
    FormatThenParseFixed(name, handle);
  }

  /** With the corrections, a post with no author key shows the default labels and
      reads back as the default line. */
  lemma PopulateWithoutAuthor(s: FormState, d: PostData)
    requires d.author.None?
    ensures PopulatedFixed(s, d).authorName == DefaultAuthorName
    ensures PopulatedFixed(s, d).authorHandle == DefaultAuthorHandle
    ensures ReadBack(PopulatedFixed(s, d)).author == DefaultAuthor
  {
    DefaultLabelsWellFormed();
    FormatThenParseFixed(DefaultAuthorName, DefaultAuthorHandle);
  }

  /** Scraped data keeps the URL that was pasted and reads back as its own fields. */
  lemma ScrapedThenReadBack(s: FormState, d: ScrapedData)
    ensures ReadBack(ScrapedInto(s, d)) == FormData(FormatAuthor(d.authorName, d.authorHandle), d.postText, "", s.url, "", "")
    ensures ScrapedInto(s, d).mode == SaveMode
  {
  }

  class PostDetailFrame {
    var title: string
    var url: string
    var postText: string
    var notes: string
    var authorName: string
    var authorHandle: string
    var avatarSource: Option<string>
    var projectName: string
    var categoryName: string
    var mode: Mode
    /** Whether connect_callbacks has given a fetch callback. */
    var hasFetchCallback: bool

    function State(): FormState
      reads this
    {
      FormState(title, url, postText, notes, authorName, authorHandle, avatarSource, projectName, categoryName, mode)
    }

    /** The widgets as _create_widgets makes them: the placeholder labels, empty
        fields and comboboxes, Save mode, no callbacks. */
    constructor()
      ensures State() == FormState(StartTitle, "", "", "", DefaultAuthorName, DefaultAuthorHandle, None, "", "", SaveMode)
      ensures !hasFetchCallback
    {
      title, url, postText, notes := StartTitle, "", "", "";
      authorName, authorHandle, avatarSource := DefaultAuthorName, DefaultAuthorHandle, None;
      projectName, categoryName, mode := "", "", SaveMode;
      hasFetchCallback := false;
    }

    /** connect_callbacks, for the one callback the modelled code tests. */
    method ConnectCallbacks(fetch: bool)
      modifies this
      ensures hasFetchCallback == fetch
      ensures State() == old(State())
    {
      hasFetchCallback := fetch;
    }

    method SetSaveMode()
      modifies this
      ensures State() == old(State()).(title := SaveTitle, mode := SaveMode)
      ensures hasFetchCallback == old(hasFetchCallback)
    {
      title, mode := SaveTitle, SaveMode;
    }

    method SetEditMode()
      modifies this
      ensures State() == old(State()).(title := EditTitle, mode := EditMode)
      ensures hasFetchCallback == old(hasFetchCallback)
    {
      title, mode := EditTitle, EditMode;
    }

    /** clear_form */
    method ClearForm(clearUrl: bool)
      modifies this
      ensures State() == Cleared(old(State()), clearUrl)
      ensures hasFetchCallback == old(hasFetchCallback)
    {
      if clearUrl {
        url := "";
      }
      postText, notes := "", "";
      authorName, authorHandle := DefaultAuthorName, DefaultAuthorHandle;
      avatarSource := None;
      projectName, categoryName := "", "";
      SetSaveMode();
    }

    /** populate_form as written. */
    method PopulateForm(d: PostData)
      modifies this
      ensures State() == Populated(old(State()), d)
      ensures hasFetchCallback == old(hasFetchCallback)
    {
      ClearForm(false);
      url := d.url.GetOr("") + url;
      postText := d.postText.GetOr("");
      notes := d.notes.GetOr("");
      var parsed := ParseAuthor(d.author.GetOr(DefaultAuthor));
      authorName, authorHandle := parsed.0, parsed.1;
      projectName := d.projectName.GetOr(DefaultProjectName);
      categoryName := d.categoryName.GetOr("");
      if d.avatarUrl.Some? && d.avatarUrl.value != "" {
        avatarSource := d.avatarUrl;
      } else {
        avatarSource := None;
      }
      SetEditMode();
    }

    /** populate_form with the two corrections: the URL entry is replaced and the
        handle keeps a single '@'. */
    method PopulateFormFixed(d: PostData)
      modifies this
      ensures State() == PopulatedFixed(old(State()), d)
      ensures hasFetchCallback == old(hasFetchCallback)
    {
      ClearForm(false);
      url := d.url.GetOr("");
      postText := d.postText.GetOr("");
      notes := d.notes.GetOr("");
      var parsed := ParseAuthorFixed(d.author.GetOr(DefaultAuthor));
      authorName, authorHandle := parsed.0, parsed.1;
      projectName := d.projectName.GetOr(DefaultProjectName);
      categoryName := d.categoryName.GetOr("");
      if d.avatarUrl.Some? && d.avatarUrl.value != "" {
        avatarSource := d.avatarUrl;
      } else {
        avatarSource := None;
      }
      SetEditMode();
    }

    /** populate_scraped_data */
    method PopulateScrapedData(d: ScrapedData)
      modifies this
      ensures State() == ScrapedInto(old(State()), d)
      ensures hasFetchCallback == old(hasFetchCallback)
    {
      ClearForm(false);
      authorName, authorHandle := d.authorName, d.authorHandle;
      postText := d.postText;
      if d.avatarUrl.Some? && d.avatarUrl.value != "" {
        avatarSource := d.avatarUrl;
      }
    }

    /** get_form_data */
    method GetFormData() returns (r: FormData)
      ensures r == ReadBack(State())
    {
      r := FormData(authorName + " (" + authorHandle + ")", postText, notes, url, categoryName, projectName);
    }

    /** _on_url_change: the URL handed to the fetch callback, if it is called. */
    method OnUrlChange() returns (fetched: Option<string>)
      ensures fetched.Some? <==> hasFetchCallback && StatusUrl(url)
      ensures fetched.Some? ==> fetched.value == url
    {
      if hasFetchCallback && (Contains(url, "x.com") || Contains(url, "twitter.com")) && Contains(url, "/status/") {
        return Some(url);
      }
      return None;
    }
  }
}
