# Personal website core, modelled in Dafny

This project models the parts of a personal website that have behaviour beyond
rendering, and proves properties about them:

- **The standalone demo page (`app.js`).** One mutable application state holds the
  posts, the gallery, the pending composer images, the theme, the viewer index and the
  viewer's images. Event handlers update it in place. This is `App.AppState`, a class
  whose methods are the handlers. The class also holds the parts of the page the
  handlers read and write: the composer's text and selection (`draft`,
  `selectionStart`, `selectionEnd`, read by `InsertEmoji` and `PublishPost`), and
  whether the emoji picker and the image viewer are open (`emojiPickerOpen`,
  `viewerOpen`, the `active` class of app.js:305, 318, 531, 540 and 560). `EditDraft`
  stands for the user typing in the browser; it is not a handler of `app.js`. The rest
  of what a handler reads from the page is a parameter: the chosen files with the data
  URLs their reads complete with, the key pressed, the answer to `confirm()`, the five
  edited profile texts `saveProfile` trims, and the clock. Each handler returns the
  toast it would show.
- **The build-time content index (`scripts/generate-content.js`).** `getContentByCategory`
  turns a directory listing into content items. It keeps the `.md` files, derives the
  slug and the default link, fills the front-matter defaults, numbers the items and
  sorts them newest first. The `getContentBySlug` helper of the generated module is a
  first-match lookup. Modelled as pure functions in `ContentGenerator`.
- **The article cards and their category filter (`src/lib/data/articles.ts`).** The filter
  is "全部" ("all") followed by the distinct categories in order of first occurrence
  (`Articles`).
- **The chat dialogue table (`src/lib/data/dialoguePatterns.ts`).** Twenty groups of
  keyword/response patterns, the combined table and the fallback replies, with the
  table's structural invariants (`DialoguePatterns`).

Shared modules:

- `JsText` models JavaScript strings as UTF-16 code units. It has ECMAScript `trim`, and
  the lexicographic order used for `localeCompare`.
- `Seqs` has `filter`, `find` and `map`, plus facts about permutations.
- `Wrappers` has `Option`.

Where the code and its documented intent differ, the model follows the code:

- Ids are given in directory-listing order, **before** the sort, so after sorting they
  are a permutation of 1..n and need not ascend. `ContentGenerator.IdsNeedNotAscend`
  exhibits two files whose ids come out as 2, 1.
- The sort comparator answers 1 for two undated items in either order. So undated items
  keep no guaranteed relative order; the sort is not a stable "undated last" order.
- The header of `dialoguePatterns.ts` announces "100+" patterns. The combined table holds
  46 (`DialoguePatterns.TableSize`).

## Model

| member | source | states |
|---|---|---|
| App.AppState.constructor | app.js:9-23 | the initial state: no posts, photos or pending images, the default profile, the light theme, index 0, no start date |
| App.ToggledTheme | app.js:213-217 | the result is 'dark' exactly when the theme was 'light', and 'light' for every other value |
| App.ToggleThemeTwice | app.js:213-217 | two toggles restore 'light' or 'dark'; from any other value they end on 'dark' |
| App.AppState.ToggleTheme | app.js:213-217 | the theme becomes the toggled old theme; nothing else changes |
| App.ImagesAccepted | app.js:259-288 | a selection never takes the pending images past 9 and adds at most one URL per file |
| App.AcceptedUrlFromImageFile | app.js:272-284 | every accepted URL is the data URL of a selected file whose type starts with `image/` |
| App.AllImagesFit | app.js:272-284 | with room for all of them, a selection of image files is accepted whole and in order |
| App.ImageWithinSlotsAccepted | app.js:272-284 | every image file among the first free-slot files is accepted, at the position right after the URLs of the image files before it, for any mix of files |
| App.ImagesAcceptedStep | app.js:266-284 | the files take slots one by one: the first uses up a slot whether or not it is an image and adds its URL only when it is one |
| App.NonImageUsesLastSlot | app.js:266-284 | with one slot left, a non-image first file uses it up and nothing is accepted |
| App.AppState.SelectImages | app.js:259-288 | no files: nothing changes; 9 pending: nothing changes and the error toast is returned; otherwise the accepted URLs are appended in order; at most 9 stay pending |
| App.IsImageFile | app.js:276 | `file.type.startsWith('image/')`, the test of both the composer (app.js:276) and the gallery upload (app.js:465) |
| App.ImageUrls | app.js:274-281 | the data URLs of the image files in order; its meaning is stated by App.ImagesAcceptedStep and App.ImageWithinSlotsAccepted |
| App.AppState.ReadImages | app.js:274-284 | the loop appends the data URLs of exactly the image files, in order |
| App.SpliceOut | app.js:299-302 | `splice(index, 1)`: an index inside the list removes exactly that element and keeps the order of the rest; negative indices count from the end; an index past the end removes nothing |
| App.SpliceOutRemovesOne | app.js:299-302 | removing a preview takes out exactly one copy of that image |
| App.AppState.RemovePreviewImage | app.js:299-302 | the pending images become the spliced list; at most 9 stay pending |
| App.AppState.ToggleEmojiPicker | app.js:304-306 | the picker's open state flips |
| App.InsertAtSelection | app.js:308-319 | the text before the selection is kept, the inserted text follows, then the text after the selection, with the length adjusted accordingly |
| App.InsertTwice | app.js:308-319 | inserting `a` and then `b` at the caret left after `a` equals inserting `a + b` once |
| App.AppState.InsertEmoji | app.js:308-319 | the emoji replaces the selection, the caret lands at start + length of the emoji, and the picker closes |
| App.NewPost | app.js:330-337 | a new post has 0 likes, is not liked, and carries the given id, time, content and images |
| App.AppState.PublishPost | app.js:321-352 | blank content with no images: nothing changes and the error toast is returned; otherwise one post with the trimmed text and the old pending images is prepended, the composer and pending images are cleared, and like counters stay consistent |
| App.WithoutPost | app.js:413-416 | every remaining post lacks the id and was in the list; every post without the id remains |
| App.WithoutPostRemovesOnlyThatId | app.js:413-416 | the kept posts and the posts with that id together are exactly the old posts |
| App.AppState.DeletePost | app.js:413-421 | not confirmed: nothing changes; confirmed: the posts with that id go and the "已删除" toast is returned; like counters stay consistent |
| App.LikeToggled | app.js:426-427 | the like flips; the counter goes up by one when it becomes liked and down by one otherwise; no other field changes |
| App.LikeToggledKeepsCount | app.js:426-427 | a post whose counter matched its like still matches after a toggle |
| App.WithLikeToggled | app.js:423-431 | only the first post with that id is toggled; an unknown id changes nothing; the length is kept |
| App.FirstPostWithId | app.js:424 | the `find` by id as a position; its first-match meaning is stated by Seqs.FirstIndex |
| App.LikeCountsPreserved | app.js:423-431 | publishing, toggling and deleting keep every post's counter equal to 1 when liked and 0 otherwise |
| App.AppState.ToggleLike | app.js:423-431 | the posts become the toggled list, and consistent counters stay consistent |
| App.AppState.OpenPostImageViewer | app.js:443-450 | an unknown post changes nothing; otherwise the viewer shows that post's images at the given index and opens when there is an image |
| App.NewPhotos | app.js:463-483 | an upload adds at most one photo per file; its result for any mix of files is stated by App.NewPhotosAppend, App.NewPhotoFromImageFile and App.ImageUploadGivesAllPhotos |
| App.NewPhotosAppend | app.js:464-478 | one more file adds a photo of its data URL at the end when it is an image, and nothing otherwise |
| App.NewPhotoFromImageFile | app.js:463-483 | every new photo is an image file's data URL with that file's id and the upload time |
| App.ImageUploadGivesAllPhotos | app.js:463-483 | an upload of image files adds one photo per file, in order |
| App.AppState.AddGalleryPhotos | app.js:463-483 | the gallery grows by exactly the new photos, in order, and the success toast is returned |
| App.AppState.DeleteGalleryPhoto | app.js:507-515 | not confirmed: nothing changes; confirmed: the photos with that id go, the others keep their order |
| App.WithoutPhotoRemovesOnlyThatId | app.js:507-515 | the kept photos and the photos with that id together are exactly the old gallery |
| App.AppState.OpenGalleryViewer | app.js:517-521 | the viewer shows the sources of all gallery photos in order, at the given index |
| App.AppState.OpenImageViewer | app.js:526-537 | the viewer opens only when there is an image to show |
| App.AppState.CloseImageViewer | app.js:539-542 | the viewer is closed |
| App.WrapIndex | app.js:544-557 | with 2 or more images the index moves by the direction, wrapping below 0 to the last and past the end to 0, and always lands in range; with fewer it is unchanged |
| App.StepBackUndoesStepForward | app.js:544-557 | "previous" undoes "next" and the other way round |
| App.StepsForwardIsModular | app.js:544-557 | after n presses of "next" the index is (start + n) modulo the number of images |
| App.AppState.NavigateViewer | app.js:544-557 | the index follows the wrap rule; with 2 or more images it stays in range, with fewer it is unchanged |
| App.AppState.HandleKeyboard | app.js:559-573 | keys act only while the viewer is open: Escape closes it, the arrows step back or forward, other keys do nothing |
| App.SavedFieldNeverBlank | app.js:578-589 | a saved field is never empty; it is the placeholder when the edit was all white space, and the trimmed edit otherwise (which can equal the placeholder when the placeholder's own text was typed) |
| App.SavedField | app.js:580 | one field: the trimmed text, or the placeholder when nothing is left; stated by App.SavedFieldNeverBlank |
| App.SavedProfile | app.js:579-585 | the five saved fields with their placeholders, applied by App.AppState.SaveProfile |
| App.AppState.SaveProfile | app.js:578-589 | the profile becomes the five saved fields and the success toast is returned |
| App.ImageCountAppend | app.js:604-606 | the image count of two lists of posts adds up |
| App.ImageCount | app.js:605-606 | the `reduce` over the posts' image counts; stated by App.ImageCountAppend and App.DeleteNeverAddsImages |
| App.TotalPhotos | app.js:604-606 | gallery photos plus post images; stated by App.PublishAddsImages |
| App.PublishAddsImages | app.js:604-606 | a new post raises the photo total by its image count |
| App.DeleteNeverAddsImages | app.js:604-606 | filtering posts never raises the image count |
| App.DayCount | app.js:609-614 | the day counter is the number of whole days elapsed, plus one |
| App.AppState.Stats | app.js:602-616 | the post count, gallery photos plus post images, and a day count exactly when a start date is known |
| App.AppState.LoadFromStorage | app.js:640-658 | an unreadable record changes nothing; a first visit only records the start date; a stored record replaces each field with a default when it is missing |
| App.FormatTime | app.js:689-707 | just now below a minute, then whole minutes below an hour, whole hours below a day, whole days below a week, else the calendar date with a 1-based month; each threshold is both ways |
| JsText.IsWhiteSpace | app.js:322 | the code units `trim` removes: ECMAScript's WhiteSpace (TAB, VT, FF, ZWNBSP, and the Space_Separator code points U+0020, U+00A0, U+1680, U+2000-U+200A, U+202F, U+205F, U+3000) and LineTerminator (LF, CR, U+2028, U+2029) |
| JsText.Trim | app.js:322 | `String.prototype.trim`, as used at app.js:322, app.js:580-584 and scripts/generate-content.js:40: drop the leading, then the trailing white space; stated by JsText.TrimIsInfix, JsText.TrimEmptyIff and JsText.TrimIdempotent |
| JsText.TrimIsInfix | app.js:322 | `trim` returns a contiguous part of the input, cuts off only white space, and leaves no white space at either end |
| JsText.TrimEmptyIff | app.js:324 | trimming gives the empty string exactly when the input is all white space |
| JsText.TrimIdempotent | app.js:322 | trimming twice is trimming once |
| JsText.LexIrreflexive | scripts/generate-content.js:48 | no date is before itself |
| JsText.LexAsymmetric | scripts/generate-content.js:48 | two dates are never each before the other |
| JsText.LexTransitive | scripts/generate-content.js:48 | the date order is transitive |
| JsText.LexTotal | scripts/generate-content.js:48 | of two different dates one is before the other |
| JsText.LexLessAtFirstDifference | scripts/generate-content.js:48 | the first differing code unit decides the order |
| JsText.LocaleCompare | scripts/generate-content.js:48 | negative, zero or positive exactly when the first is before, equal to or after the second |
| Seqs.Keep | scripts/generate-content.js:20 | `filter` keeps exactly the accepted elements |
| Seqs.KeepAppend | scripts/generate-content.js:20 | `filter` works left to right, so kept elements keep their order |
| Seqs.KeepSplits | app.js:415 | the kept and the rejected elements together make up the list |
| Seqs.FirstIndex | app.js:424 | the first matching index, and none exactly when nothing matches |
| Seqs.Find | scripts/generate-content.js:102 | `find` returns the first match, and nothing exactly when nothing matches |
| ContentGenerator.Slug | scripts/generate-content.js:27 | the slug followed by ".md" is the file name |
| ContentGenerator.SlugOfMarkdownName | scripts/generate-content.js:27 | stripping ".md" from slug + ".md" gives the slug back |
| ContentGenerator.FieldOrFallsBack | scripts/generate-content.js:30 | `data.key \|\| fallback` takes the fallback exactly when the field is missing or empty |
| ContentGenerator.FieldOr | scripts/generate-content.js:35-37 | `data.key \|\| fallback`; stated by ContentGenerator.FieldOrFallsBack |
| ContentGenerator.DefaultHref | scripts/generate-content.js:30 | `/article/{category}/{slug}`; used by ContentGenerator.ItemFields |
| ContentGenerator.IsMarkdown | scripts/generate-content.js:20 | `f.endsWith('.md')` on the file's name |
| ContentGenerator.MarkdownFiles | scripts/generate-content.js:20 | the `.md` files of the listing, in order (a Seqs.Keep) |
| ContentGenerator.BuildItem | scripts/generate-content.js:22-42 | the record the `map` callback builds; its fields are stated by ContentGenerator.ItemFields |
| ContentGenerator.ItemFields | scripts/generate-content.js:22-42 | each field of an item: the front matter's value when set (the category as that value), otherwise the slug for the title, '' for description and date, no category and `/article/{category}/{slug}` for the link; the content is the trimmed body |
| ContentGenerator.BuildItems | scripts/generate-content.js:22-42 | one item per markdown file, with id = 1-based listing position |
| ContentGenerator.InsertByDate | scripts/generate-content.js:45-49 | one insertion step of the sort adds exactly the item |
| ContentGenerator.CompareByDate | scripts/generate-content.js:45-49 | positive when `a` is undated; negative when only `b` is undated; for two dated items negative, zero or positive exactly when `a` is newer, the same date or older |
| ContentGenerator.InsertKeepsDateOrder | scripts/generate-content.js:45-49 | inserting into a newest-first list keeps it newest first |
| ContentGenerator.SortByDate | scripts/generate-content.js:45-49 | the sort is a permutation |
| ContentGenerator.SortIsDateOrdered | scripts/generate-content.js:45-49 | the sorted list is newest first, undated items last |
| ContentGenerator.MissingDirectoryIsEmpty | scripts/generate-content.js:16-18 | a missing directory gives no items |
| ContentGenerator.GetContentByCategory | scripts/generate-content.js:13-50 | the items of one category; stated by the lemmas below (missing directory, one item per markdown file, newest first, ids a permutation) |
| ContentGenerator.ItemsAreMarkdownFiles | scripts/generate-content.js:20-49 | the items are the records of the markdown files, reordered |
| ContentGenerator.ItemComesFromMarkdownFile | scripts/generate-content.js:20-42 | every item is the record of some markdown file, numbered by its position |
| ContentGenerator.MarkdownFileGivesItem | scripts/generate-content.js:20-42 | every markdown file's record is among the items |
| ContentGenerator.SlugNamesMarkdownFile | scripts/generate-content.js:20-27 | only `.md` files produce items: an item's slug + ".md" names a markdown file of the listing |
| ContentGenerator.NewestFirst | scripts/generate-content.js:45-49 | every dated item precedes every undated one, and dated items descend by date |
| ContentGenerator.BuiltIds | scripts/generate-content.js:22-33 | before sorting, the ids are 1..n in order |
| ContentGenerator.IdsArePermutation | scripts/generate-content.js:22-49 | after sorting, the ids are a permutation of 1..n |
| ContentGenerator.NewerSecondGoesFirst | scripts/generate-content.js:45-49 | two dated items in ascending order come out swapped |
| ContentGenerator.BuildTwoMarkdownFiles | scripts/generate-content.js:20-42 | two markdown files give items numbered 1 and 2 in listing order |
| ContentGenerator.NewerFileListedFirst | scripts/generate-content.js:13-50 | of two dated markdown files, the newer is listed first |
| ContentGenerator.IdsNeedNotAscend | scripts/generate-content.js:33-49 | ids are given before sorting, so the result can list id 2 before id 1 |
| ContentGenerator.GetContentBySlug | scripts/generate-content.js:100-103 | the first item of the chosen list with that slug, and nothing exactly when no item has it |
| ContentGenerator.Generate | scripts/generate-content.js:60-73 | the AI and finance lists of the generated data; used by ContentGenerator.EveryArticleIsFound |
| ContentGenerator.EveryArticleIsFound | scripts/generate-content.js:100-103 | every markdown file of the AI directory is found by its slug |
| Articles.AllArticles | src/lib/data/articles.ts:4-59 | the six article records, field for field; stated by Articles.ArticleIdsAreDistinct and Articles.ArticleCategories |
| Articles.Distinct | src/lib/data/articles.ts:64 | `Array.from(new Set(s))` has no duplicates and holds exactly the values of `s` |
| Articles.DistinctKeepsFirstOccurrenceOrder | src/lib/data/articles.ts:64 | the distinct values are in order of first occurrence |
| Articles.DistinctOfDistinctValues | src/lib/data/articles.ts:64 | a list without duplicates is its own set of distinct values |
| Articles.Categories | src/lib/data/articles.ts:64 | `articles.map(a => a.category)` |
| Articles.CategoryFilter | src/lib/data/articles.ts:62-65 | the first entry is "全部" |
| Articles.CategoryFilterListsEachCategoryOnce | src/lib/data/articles.ts:62-65 | after "全部": no duplicates, every article's category, and nothing that is not some article's category |
| Articles.CategoryFilterOfArticles | src/lib/data/articles.ts:4-65 | for the shown articles the filter is 全部, Protocol, Automation, LLM, Agent, RAG, Tools |
| Articles.ArticleCategories | src/lib/data/articles.ts:4-58 | the shown articles' categories, which are all different |
| Articles.ArticleIdsAreDistinct | src/lib/data/articles.ts:4-58 | the article ids are 1 to 6 in order, so they are distinct |
| DialoguePatterns.Groups | src/lib/data/dialoguePatterns.ts:12-512 | the twenty group constants GreetingPatterns, FarewellPatterns, LaughterPatterns, GratitudePatterns, PraisePatterns, PresencePatterns, IdentityPatterns, OwnerPatterns, WeatherTimePatterns, BoredomPatterns, EncouragementPatterns, CuriosityPatterns, FoodPatterns, WorkStudyPatterns, HumorPatterns, TechnologyPatterns, EmotionPatterns, RandomPatterns, PositivePatterns and MiscPatterns, in declared order, with the source's keyword and reply texts; stated by DialoguePatterns.GroupsWellFormed |
| DialoguePatterns.AllDialoguePatterns | src/lib/data/dialoguePatterns.ts:515-536 | `allDialoguePatterns`, the twenty groups spread in order; stated by DialoguePatterns.TableIsSpreadOfGroups and DialoguePatterns.TableSize |
| DialoguePatterns.DefaultResponses | src/lib/data/dialoguePatterns.ts:539-550 | `defaultResponses`, the ten fallback replies; stated by DialoguePatterns.DefaultResponsesAvailable |
| DialoguePatterns.FlattenLength | src/lib/data/dialoguePatterns.ts:515-536 | a spread holds as many patterns as its groups together |
| DialoguePatterns.FlattenKeepsOrder | src/lib/data/dialoguePatterns.ts:515-536 | a spread keeps each group in place, after all earlier groups |
| DialoguePatterns.FlattenWellFormed | src/lib/data/dialoguePatterns.ts:515-536 | a spread of well-formed groups is well formed |
| DialoguePatterns.FlattenSnoc | src/lib/data/dialoguePatterns.ts:515-536 | spreading one more group appends its patterns |
| DialoguePatterns.SpreadOfTwenty | src/lib/data/dialoguePatterns.ts:515-536 | twenty spreads in a row equal the spread of the list of twenty |
| DialoguePatterns.TableIsSpreadOfGroups | src/lib/data/dialoguePatterns.ts:515-536 | the combined table is exactly the 20 groups, in declared order |
| DialoguePatterns.TablePosition | src/lib/data/dialoguePatterns.ts:515-536 | pattern i of group k sits in the table right after the patterns of the earlier groups |
| DialoguePatterns.TableSize | src/lib/data/dialoguePatterns.ts:12-536 | the table holds 46 patterns, fewer than the "100+" of the header |
| DialoguePatterns.GroupsWellFormed | src/lib/data/dialoguePatterns.ts:12-512 | every pattern of every group has a keyword and a reply, and no empty keyword |
| DialoguePatterns.TableWellFormed | src/lib/data/dialoguePatterns.ts:12-512 | every pattern of the combined table has a keyword and a reply, and no empty keyword |
| DialoguePatterns.FirstPatternGreets | src/lib/data/dialoguePatterns.ts:14 | the table opens with the greeting pattern, whose keywords include "你好" and "hello" |
| DialoguePatterns.DefaultResponsesAvailable | src/lib/data/dialoguePatterns.ts:539-550 | there are 10 fallback replies, none empty |

## Left out

- Rendering and the DOM are not modelled. This covers `renderPosts`, `createPostHTML`,
  `renderGallery`, `updateImagePreview`, `applyTheme`, `applyProfile`, `showToast`'s
  on-screen part, `escapeHTML`, `toggleMobileMenu` and `updateActiveNav`.
- The document click handler of app.js:163-167, which closes the emoji picker on any
  click outside it and the emoji button, is not modelled. It clears the state that
  `emojiPickerOpen` stands for, so in the program the picker can close between the
  model's handlers.
- `saveToStorage` and localStorage writes are not modelled. `loadFromStorage` gets the
  outcome of reading and parsing the stored record as a parameter.
- `sharePost` is not modelled, because the clipboard is browser I/O.
- FileReader loads are asynchronous in the source. The free-slot count is taken when
  the files are chosen, and each `push` happens later, when its read finishes. The
  model completes every read at once, in selection order, before the next handler
  runs. So the 9-image cap (`App.AppState.Valid`), and a composer left empty after
  publishing, hold in the model but not in the program in these cases:
  - a second selection made before the first one's reads finish sees a stale count
    and can take the pending images past 9;
  - a `removePreviewImage` or `publishPost` made while reads are pending lets a late
    read land in the new list, so a just-published composer can show images again;
  - reads that finish out of order append in that order.
- `Date.now()`, `Math.random()` and the wall clock are parameters: post ids, photo ids,
  `now`, and elapsed milliseconds. One `now` stands for every clock reading of one
  handler. In the source, `publishPost` reads the clock twice, for the id and for
  `createdAt` (app.js:331, 336), and `processGalleryFiles` reads it once per finished
  read (app.js:469-471). So the model gives a post the same time for both, and every
  photo of one upload the same `createdAt`, where the program can give different ones.
- Gallery photo ids are integers in the model. In the source they are
  `Date.now() + Math.random()` numbers, and `deleteGalleryPhoto` gets the id back as
  the string `'${photo.id}'` (app.js:498) and compares it with loose `!=`
  (app.js:510). That converts the string back to a number, and ECMAScript's
  number-to-string conversion round-trips every finite number, so the comparison
  gives the same answer as the model's `!=` on ids.
- Timestamps are kept as integers. Their ISO-string form and the zero-padded
  `YYYY-MM-DD` text of `formatTime` are not modelled. `App.FormatTime` returns the
  label's parts instead.
- `handleGalleryUpload`'s check for an empty file list is not modelled.
  `App.AppState.AddGalleryPhotos` models `processGalleryFiles`.
- Gray-matter parsing, directory reads, the file writes of `main` and the
  `generatedAt` timestamp are not modelled. A directory is its listing of
  (name, parsed front matter, body), or `None` when it does not exist.
- Stored records are taken to be well typed: every stored post has an `images` list.
  The source guards against one without it (`post && post.images`, `p.images?.length || 0`).
  Records that lack fields inside a post or photo are not modelled.
- Front-matter values are strings only. Non-string YAML values (dates, numbers) are not
  modelled.
- ContentGenerator.SortByDate: the comparator is inconsistent for two undated items.
  For such a comparator ECMAScript leaves the whole sort order to the engine, not only
  the order of undated items. So "dated first, newest first" in the running program
  depends on the engine's sort algorithm, not on the language. The model fixes one
  algorithm, an insertion sort driven by the comparator. For that algorithm it proves
  a permutation, dated items first in descending order, and undated items last.
- JsText.LocaleCompare: `localeCompare` is taken to be lexicographic code-unit order. The
  dates compared are ASCII strings such as "2024-12". Locale collation of other text is
  not modelled.
- Articles: the `icon` component of each article card is not modelled. It is a
  React component reference.
- The chat reply resolver that scans the dialogue table, and the chat session, are not
  part of this model. That code is not among the modelled files. The random choice of
  a reply is not modelled either.
- React pages and components, canvas effects, timers, audio and configuration files
  are presentation, not logic.
