/**
 * The build-time content index (scripts/generate-content.js): every markdown file of
 * a category directory becomes one content item, items are numbered in listing order
 * and then ordered newest first. Reading the directory and parsing front matter
 * (gray-matter) are not modelled: a directory is given as its listing, each entry with
 * its parsed front matter and body, or as None when it does not exist.
 */
module ContentGenerator {
  import opened Wrappers
  import opened JsText
  import Seqs

  /** A directory entry: its file name, the front-matter fields gray-matter parsed
      (only string values are modelled) and the markdown body after the front matter. */
  datatype SourceFile = SourceFile(name: JsString, frontMatter: map<JsString, JsString>, body: JsString)

  datatype ContentItem = ContentItem(id: int, slug: JsString, title: JsString,
                                     description: JsString, date: JsString,
                                     category: Option<JsString>, href: JsString,
                                     content: JsString)

  /** The generated `content.json` / `content.ts` data (its timestamp left out). */
  datatype ContentData = ContentData(ai: seq<ContentItem>, finance: seq<ContentItem>)

  datatype Domain = Ai | Finance

  const MarkdownExtension: JsString := Lit(".md")
  const ArticleRoute: JsString := Lit("/article/")
  const PathSeparator: JsString := Lit("/")
  const AiCategory: JsString := Lit("ai")
  const FinanceCategory: JsString := Lit("finance")

  const TitleKey: JsString := Lit("title")
  const DescriptionKey: JsString := Lit("description")
  const DateKey: JsString := Lit("date")
  const CategoryKey: JsString := Lit("category")
  const HrefKey: JsString := Lit("href")

  // ---------------------------------------------------------------------------
  // One file, one item
  // ---------------------------------------------------------------------------

  predicate IsMarkdown(f: SourceFile) {
    EndsWith(f.name, MarkdownExtension)
  }

  /** `filenames.filter(f => f.endsWith('.md'))`. */
  function MarkdownFiles(listing: seq<SourceFile>): seq<SourceFile> {
    Seqs.Keep(listing, IsMarkdown)
  }

  /** `filename.replace(/\.md$/, '')`: the slug and ".md" give back the file name. */
  function Slug(name: JsString): (slug: JsString)
    ensures EndsWith(name, MarkdownExtension) ==> slug + MarkdownExtension == name
    ensures !EndsWith(name, MarkdownExtension) ==> slug == name
  {
    if EndsWith(name, MarkdownExtension) then name[..|name| - |MarkdownExtension|] else name
  }

  /** A slug is recovered from the file name it came from. */
  lemma SlugOfMarkdownName(slug: JsString)
    ensures Slug(slug + MarkdownExtension) == slug
  {
    var name := slug + MarkdownExtension;
    assert name[|name| - |MarkdownExtension|..] == MarkdownExtension;
    assert name[..|name| - |MarkdownExtension|] == slug;
  }

  /** `data.key || fallback` on the parsed front matter. */
  function FieldOr(frontMatter: map<JsString, JsString>, key: JsString, fallback: JsString): JsString {
    if key in frontMatter then OrElse(frontMatter[key], fallback) else fallback
  }

  /** Whether the front matter sets `key` to a non-empty (truthy) string. */
  predicate HasField(frontMatter: map<JsString, JsString>, key: JsString) {
    key in frontMatter && frontMatter[key] != []
  }

  /** A field falls back exactly when it is missing or empty. */
  lemma FieldOrFallsBack(frontMatter: map<JsString, JsString>, key: JsString, fallback: JsString)
    ensures FieldOr(frontMatter, key, fallback)
         == if HasField(frontMatter, key) then frontMatter[key] else fallback
  {
  }

  /** The route an article gets when its front matter names none. */
  function DefaultHref(category: JsString, slug: JsString): JsString {
    ArticleRoute + category + PathSeparator + slug
  }

  /** The record the `map` callback builds for the file at 1-based position `id`. */
  function BuildItem(category: JsString, f: SourceFile, id: int): ContentItem {
    var slug := Slug(f.name);
    ContentItem(
      id,
      slug,
      FieldOr(f.frontMatter, TitleKey, slug),
      FieldOr(f.frontMatter, DescriptionKey, []),
      FieldOr(f.frontMatter, DateKey, []),
      if HasField(f.frontMatter, CategoryKey) then Some(f.frontMatter[CategoryKey]) else None,
      FieldOr(f.frontMatter, HrefKey, DefaultHref(category, slug)),
      Trim(f.body))
  }

  /** What each field of an item is: the front matter's value when it is set, and
      otherwise the slug for the title, the empty string for description and date, no
      category, and `/article/{category}/{slug}` for the link; the content is the
      trimmed body. */
  lemma ItemFields(category: JsString, f: SourceFile, id: int)
    requires IsMarkdown(f)
    ensures var item := BuildItem(category, f, id);
      && item.id == id
      && item.slug + MarkdownExtension == f.name
      && item.title == (if HasField(f.frontMatter, TitleKey) then f.frontMatter[TitleKey] else item.slug)
      && item.description == (if HasField(f.frontMatter, DescriptionKey) then f.frontMatter[DescriptionKey] else [])
      && item.date == (if HasField(f.frontMatter, DateKey) then f.frontMatter[DateKey] else [])
      && (item.category.Some? <==> HasField(f.frontMatter, CategoryKey))
      && (HasField(f.frontMatter, CategoryKey) ==> item.category == Some(f.frontMatter[CategoryKey]))
      && (HasField(f.frontMatter, HrefKey) ==> item.href == f.frontMatter[HrefKey])
      && (!HasField(f.frontMatter, HrefKey) ==> item.href == DefaultHref(category, item.slug))
      && item.content == Trim(f.body)
  {
    FieldOrFallsBack(f.frontMatter, TitleKey, Slug(f.name));
    FieldOrFallsBack(f.frontMatter, DescriptionKey, []);
    FieldOrFallsBack(f.frontMatter, DateKey, []);
    FieldOrFallsBack(f.frontMatter, HrefKey, DefaultHref(category, Slug(f.name)));
  }

  /** The items of the markdown files, numbered 1, 2, ... in listing order. */
  function BuildItems(category: JsString, files: seq<SourceFile>): (items: seq<ContentItem>)
    ensures |items| == |files|
    ensures forall i :: 0 <= i < |files| ==> items[i] == BuildItem(category, files[i], i + 1)
  {
    if files == [] then []
    else BuildItems(category, files[..|files| - 1]) + [BuildItem(category, files[|files| - 1], |files|)]
  }

  function ItemId(item: ContentItem): int {
    item.id
  }

  function Ids(items: seq<ContentItem>): seq<int> {
    Seqs.Map(items, ItemId)
  }

  /** The numbers 1 to n. */
  function OneTo(n: nat): (r: seq<int>)
    ensures |r| == n
    ensures forall i :: 0 <= i < n ==> r[i] == i + 1
  {
    seq(n, i requires 0 <= i < n => i + 1)
  }

  // ---------------------------------------------------------------------------
  // Newest first
  // ---------------------------------------------------------------------------

  /** The comparator passed to `sort`: an undated `a` goes after `b`, an undated `b`
      after `a`, and two dated items compare by `b.date.localeCompare(a.date)`. It
      answers 1 for two undated items in either order, so it promises nothing about
      their relative order. */
  function CompareByDate(a: ContentItem, b: ContentItem): (r: int)
    ensures a.date == [] ==> r > 0
    ensures a.date != [] && b.date == [] ==> r < 0
    ensures a.date != [] && b.date != [] ==>
              && (r < 0 <==> LexLess(b.date, a.date))
              && (r == 0 <==> a.date == b.date)
              && (r > 0 <==> LexLess(a.date, b.date))
  {
    if a.date == [] then 1
    else if b.date == [] then -1
    else LocaleCompare(b.date, a.date)
  }

  /** `a` may stand before `b` in the sorted list: a dated `b` needs a dated `a` whose
      date is not earlier. */
  predicate Precedes(a: ContentItem, b: ContentItem) {
    b.date != [] ==> a.date != [] && !LexLess(a.date, b.date)
  }

  predicate DateOrdered(s: seq<ContentItem>) {
    forall i, j :: 0 <= i < j < |s| ==> Precedes(s[i], s[j])
  }

  lemma PrecedesTransitive(a: ContentItem, b: ContentItem, c: ContentItem)
    requires Precedes(a, b) && Precedes(b, c)
    ensures Precedes(a, c)
  {
    if c.date != [] && LexLess(a.date, c.date) {
      LexTotal(a.date, b.date);
      if LexLess(b.date, a.date) {
        LexTransitive(b.date, a.date, c.date);
      }
    }
  }

  /** Insertion of one item into an already sorted list, as the sort does it: the item
      goes before the first element the comparator ranks after it. */
  function InsertByDate(x: ContentItem, s: seq<ContentItem>): (r: seq<ContentItem>)
    ensures multiset(r) == multiset(s) + multiset{x}
  {
    if s == [] then [x]
    else if CompareByDate(x, s[0]) < 0 then [x] + s
    else
      assert s == [s[0]] + s[1..];
      [s[0]] + InsertByDate(x, s[1..])
  }

  lemma {:induction false} InsertKeepsDateOrder(x: ContentItem, s: seq<ContentItem>)
    requires DateOrdered(s)
    ensures DateOrdered(InsertByDate(x, s))
  {
    if s == [] {
    } else if CompareByDate(x, s[0]) < 0 {
      var r := [x] + s;
      assert Precedes(x, s[0]) by {
        if s[0].date != [] { LexAsymmetric(x.date, s[0].date); }
      }
      forall i, j | 0 <= i < j < |r| ensures Precedes(r[i], r[j]) {
        if i == 0 && j > 1 { PrecedesTransitive(x, s[0], s[j - 1]); }
      }
    } else {
      InsertKeepsDateOrder(x, s[1..]);
      var rest := InsertByDate(x, s[1..]);
      var r := [s[0]] + rest;
      assert Precedes(s[0], x);
      forall j | 0 <= j < |rest| ensures Precedes(s[0], rest[j]) {
        assert rest[j] in multiset(s[1..]) + multiset{x};
        if rest[j] != x {
          var k :| 0 <= k < |s[1..]| && s[1..][k] == rest[j];
          assert s[k + 1] == rest[j];
        }
      }
      forall i, j | 0 <= i < j < |r| ensures Precedes(r[i], r[j]) {
        if i == 0 { assert r[j] == rest[j - 1]; }
      }
    }
  }

  /** `items.sort(CompareByDate)`, modelled as the insertion sort that takes the items
      in order and inserts each into the sorted prefix. */
  function SortByDate(s: seq<ContentItem>): (r: seq<ContentItem>)
    ensures multiset(r) == multiset(s)
  {
    if s == [] then []
    else
      var init := s[..|s| - 1];
      assert s == init + [s[|s| - 1]];
      InsertByDate(s[|s| - 1], SortByDate(init))
  }

  lemma {:induction false} SortIsDateOrdered(s: seq<ContentItem>)
    ensures DateOrdered(SortByDate(s))
  {
    if s != [] {
      SortIsDateOrdered(s[..|s| - 1]);
      InsertKeepsDateOrder(s[|s| - 1], SortByDate(s[..|s| - 1]));
    }
  }

  // ---------------------------------------------------------------------------
  // A category
  // ---------------------------------------------------------------------------

  /** getContentByCategory: the markdown files of the directory as items, newest first. */
  function GetContentByCategory(category: JsString, directory: Option<seq<SourceFile>>): seq<ContentItem> {
    match directory
    case None => []
    case Some(listing) => SortByDate(BuildItems(category, MarkdownFiles(listing)))
  }

  /** A directory that does not exist gives no items. */
  lemma MissingDirectoryIsEmpty(category: JsString)
    ensures GetContentByCategory(category, None) == []
  {
  }

  /** One item per markdown file: the items are the records built from the markdown
      files, reordered. */
  lemma ItemsAreMarkdownFiles(category: JsString, listing: seq<SourceFile>)
    ensures var items := GetContentByCategory(category, Some(listing));
            && |items| == |MarkdownFiles(listing)|
            && multiset(items) == multiset(BuildItems(category, MarkdownFiles(listing)))
  {
    var built := BuildItems(category, MarkdownFiles(listing));
    Seqs.SameElements(SortByDate(built), built);
  }

  /** Each item is the record of a markdown file, numbered by its listing position. */
  lemma ItemComesFromMarkdownFile(category: JsString, listing: seq<SourceFile>, i: int)
    requires 0 <= i < |GetContentByCategory(category, Some(listing))|
    ensures var md := MarkdownFiles(listing);
            exists k :: 0 <= k < |md| && GetContentByCategory(category, Some(listing))[i] == BuildItem(category, md[k], k + 1)
  {
    var built := BuildItems(category, MarkdownFiles(listing));
    Seqs.SameElements(SortByDate(built), built);
    var k :| 0 <= k < |built| && built[k] == SortByDate(built)[i];
  }

  /** Each markdown file's record is among the items. */
  lemma MarkdownFileGivesItem(category: JsString, listing: seq<SourceFile>, k: int)
    requires 0 <= k < |MarkdownFiles(listing)|
    ensures BuildItem(category, MarkdownFiles(listing)[k], k + 1) in GetContentByCategory(category, Some(listing))
  {
    var built := BuildItems(category, MarkdownFiles(listing));
    Seqs.SameElements(SortByDate(built), built);
    assert built[k] in SortByDate(built);
  }

  /** Only markdown files give items: an item's slug plus ".md" is the name of a
      markdown file of the listing. */
  lemma SlugNamesMarkdownFile(category: JsString, listing: seq<SourceFile>, i: int)
    requires 0 <= i < |GetContentByCategory(category, Some(listing))|
    ensures var item := GetContentByCategory(category, Some(listing))[i];
            exists f :: f in listing && IsMarkdown(f) && item.slug + MarkdownExtension == f.name
  {
    var md := MarkdownFiles(listing);
    var built := BuildItems(category, md);
    Seqs.SameElements(SortByDate(built), built);
    var k :| 0 <= k < |built| && built[k] == SortByDate(built)[i];
    assert md[k] in listing && IsMarkdown(md[k]);
  }

  /** Newest first: every dated item comes before every undated one, and dated items
      run in descending date order. */
  lemma NewestFirst(category: JsString, directory: Option<seq<SourceFile>>)
    ensures var items := GetContentByCategory(category, directory);
            && (forall i, j :: 0 <= i < j < |items| && items[i].date == [] ==> items[j].date == [])
            && (forall i, j :: 0 <= i < j < |items| && items[j].date != [] ==>
                  !LexLess(items[i].date, items[j].date))
  {
    if directory.Some? {
      SortIsDateOrdered(BuildItems(category, MarkdownFiles(directory.value)));
    }
  }

  /** Before sorting, the ids run 1 to n. */
  lemma BuiltIds(category: JsString, files: seq<SourceFile>)
    ensures Ids(BuildItems(category, files)) == OneTo(|files|)
  {
    var built := BuildItems(category, files);
    forall i | 0 <= i < |files| ensures Ids(built)[i] == i + 1 {
      assert built[i] == BuildItem(category, files[i], i + 1);
    }
  }

  /** The ids are given before sorting, so they are 1 to n in some order. */
  lemma IdsArePermutation(category: JsString, listing: seq<SourceFile>)
    ensures multiset(Ids(GetContentByCategory(category, Some(listing))))
         == multiset(OneTo(|MarkdownFiles(listing)|))
  {
    var built := BuildItems(category, MarkdownFiles(listing));
    Seqs.MapPermutation(SortByDate(built), built, ItemId);
    BuiltIds(category, MarkdownFiles(listing));
  }

  /** Two dated items in ascending date order come out swapped. */
  lemma NewerSecondGoesFirst(a: ContentItem, b: ContentItem)
    requires a.date != [] && b.date != [] && LexLess(a.date, b.date)
    ensures SortByDate([a, b]) == [b, a]
  {
    assert [a, b][..1] == [a];
    assert [a][..0] == [];
  }

  lemma BuildTwoMarkdownFiles(category: JsString, first: SourceFile, second: SourceFile)
    requires IsMarkdown(first) && IsMarkdown(second)
    ensures BuildItems(category, MarkdownFiles([first, second]))
         == [BuildItem(category, first, 1), BuildItem(category, second, 2)]
  {
    Seqs.KeepAllIff([first, second], IsMarkdown);
    assert MarkdownFiles([first, second]) == [first, second];
  }

  /** Of two dated markdown files, the newer is listed first. */
  lemma NewerFileListedFirst(category: JsString, older: SourceFile, newer: SourceFile)
    requires IsMarkdown(older) && IsMarkdown(newer)
    requires HasField(older.frontMatter, DateKey) && HasField(newer.frontMatter, DateKey)
    requires LexLess(older.frontMatter[DateKey], newer.frontMatter[DateKey])
    ensures GetContentByCategory(category, Some([older, newer]))
         == [BuildItem(category, newer, 2), BuildItem(category, older, 1)]
  {
    BuildTwoMarkdownFiles(category, older, newer);
    FieldOrFallsBack(older.frontMatter, DateKey, []);
    FieldOrFallsBack(newer.frontMatter, DateKey, []);
    NewerSecondGoesFirst(BuildItem(category, older, 1), BuildItem(category, newer, 2));
  }

  /** ...so the ids need not ascend: when the second of two markdown files is the
      newer, it is listed first, keeping its id 2. */
  lemma IdsNeedNotAscend(category: JsString, older: SourceFile, newer: SourceFile)
    requires IsMarkdown(older) && IsMarkdown(newer)
    requires HasField(older.frontMatter, DateKey) && HasField(newer.frontMatter, DateKey)
    requires LexLess(older.frontMatter[DateKey], newer.frontMatter[DateKey])
    ensures var items := GetContentByCategory(category, Some([older, newer]));
            |items| == 2 && items[0].id == 2 && items[1].id == 1
  {
    NewerFileListedFirst(category, older, newer);
  }

  // ---------------------------------------------------------------------------
  // The generated module
  // ---------------------------------------------------------------------------

  /** main: the AI and finance directories' items. */
  function Generate(aiDirectory: Option<seq<SourceFile>>, financeDirectory: Option<seq<SourceFile>>): ContentData {
    ContentData(GetContentByCategory(AiCategory, aiDirectory),
                GetContentByCategory(FinanceCategory, financeDirectory))
  }

  function ItemsOf(data: ContentData, domain: Domain): seq<ContentItem> {
    if domain == Ai then data.ai else data.finance
  }

  /** getContentBySlug: the first item of the domain's list with that slug, or none. */
  function GetContentBySlug(data: ContentData, domain: Domain, slug: JsString): (r: Option<ContentItem>)
    ensures var items := ItemsOf(data, domain);
      && (r.None? <==> forall i :: 0 <= i < |items| ==> items[i].slug != slug)
      && (r.Some? ==> exists i :: 0 <= i < |items| && items[i] == r.value && r.value.slug == slug
                                  && forall j :: 0 <= j < i ==> items[j].slug != slug)
  {
    Seqs.Find(ItemsOf(data, domain), (item: ContentItem) => item.slug == slug)
  }

  /** Every markdown file of the AI directory can be looked up by its slug. */
  lemma EveryArticleIsFound(aiDirectory: seq<SourceFile>, financeDirectory: Option<seq<SourceFile>>, slug: JsString)
    requires exists i :: 0 <= i < |aiDirectory| && aiDirectory[i].name == slug + MarkdownExtension
    ensures GetContentBySlug(Generate(Some(aiDirectory), financeDirectory), Ai, slug).Some?
  {
    var name := slug + MarkdownExtension;
    var i :| 0 <= i < |aiDirectory| && aiDirectory[i].name == name;
    assert name[|name| - |MarkdownExtension|..] == MarkdownExtension;
    var md := MarkdownFiles(aiDirectory);
    assert aiDirectory[i] in md;
    var k :| 0 <= k < |md| && md[k] == aiDirectory[i];
    MarkdownFileGivesItem(AiCategory, aiDirectory, k);
    SlugOfMarkdownName(slug);
    var items := GetContentByCategory(AiCategory, Some(aiDirectory));
    var item := BuildItem(AiCategory, md[k], k + 1);
    assert item.slug == slug;
    var j :| 0 <= j < |items| && items[j] == item;
  }
}
