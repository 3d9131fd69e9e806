/**
 * The standalone demo page (app.js): one mutable application state, updated in place
 * by the page's event handlers. What the handlers read from the page (the textarea,
 * the chosen files, the key pressed, the answer to a confirm() dialog, the clock) is
 * passed in as parameters; rendering, toasts on screen and localStorage writes are
 * not modelled, but each handler returns the toast it would show.
 */
module App {
  import opened Wrappers
  import opened JsText
  import Seqs

  /** An image as the `data:` URL FileReader.readAsDataURL produces. */
  type DataUrl = JsString

  const MaxPendingImages: nat := 9
  const MsPerMinute: int := 60000
  const MsPerHour: int := 3600000
  const MsPerDay: int := 86400000

  const Light: JsString := Lit("light")
  const Dark: JsString := Lit("dark")
  const ImageMimePrefix: JsString := Lit("image/")

  datatype Post = Post(id: int, content: JsString, images: seq<DataUrl>,
                       likes: int, liked: bool, createdAt: int)

  datatype Photo = Photo(id: int, src: DataUrl, createdAt: int)

  datatype Profile = Profile(name: JsString, bio: JsString, email: JsString,
                             wechat: JsString, other: JsString)

  /** A file from a file input, with the data URL its read completes with. */
  datatype SelectedFile = SelectedFile(mimeType: JsString, dataUrl: DataUrl)

  datatype ToastKind = Success | Error | Info
  datatype Toast = Toast(kind: ToastKind, message: string)

  datatype Key = Escape | ArrowLeft | ArrowRight | OtherKey

  /** What JSON.parse gave back for the stored record; a field is None when it is
      missing or falsy. */
  datatype StoredData = StoredData(posts: Option<seq<Post>>, gallery: Option<seq<Photo>>,
                                   profile: Option<Profile>, theme: Option<JsString>,
                                   startDate: Option<int>)

  /** The outcome of reading and parsing the `personalWebsiteData` entry. */
  datatype StorageRead = NothingStored | Unreadable | Stored(data: StoredData)

  /** The local calendar fields of a Date, as getFullYear, getMonth and getDate give them. */
  datatype LocalDate = LocalDate(year: int, monthIndex: int, dayOfMonth: int)

  /** What formatTime shows: a relative time, or the calendar date for older posts. */
  datatype TimeLabel =
    | JustNow
    | MinutesAgo(minutes: int)
    | HoursAgo(hours: int)
    | DaysAgo(days: int)
    | CalendarDate(year: int, month: int, day: int)

  const InitialProfile: Profile :=
    Profile(Lit("点击编辑你的名字"),
            Lit("点击这里编辑你的个人简介，介绍一下你自己吧！可以写写你的爱好、职业、梦想等等..."),
            Lit("your@email.com"), Lit("your_wechat"), Lit("其他联系方式"))

  /** The placeholders saveProfile puts back into a field left blank; the bio's is
      shorter than the initial one. */
  const BlankProfile: Profile :=
    Profile(Lit("点击编辑你的名字"), Lit("点击这里编辑你的个人简介..."),
            Lit("your@email.com"), Lit("your_wechat"), Lit("其他联系方式"))

  // ---------------------------------------------------------------------------
  // Theme
  // ---------------------------------------------------------------------------

  /** The theme after a click on the toggle: 'light' becomes 'dark', anything else
      (including a stray stored value) becomes 'light'. */
  function ToggledTheme(theme: JsString): (r: JsString)
    ensures r == Dark <==> theme == Light
    ensures r == Light <==> theme != Light
  {
    if theme == Light then Dark else Light
  }

  /** Two clicks bring a light or dark page back to where it was, and two clicks from
      any other value end on 'dark'. */
  lemma ToggleThemeTwice(theme: JsString)
    ensures theme == Light || theme == Dark ==> ToggledTheme(ToggledTheme(theme)) == theme
    ensures theme != Light && theme != Dark ==> ToggledTheme(ToggledTheme(theme)) == Dark
  {
  }

  // ---------------------------------------------------------------------------
  // Pending images of the composer
  // ---------------------------------------------------------------------------

  predicate IsImageFile(f: SelectedFile) {
    StartsWith(f.mimeType, ImageMimePrefix)
  }

  function DataUrls(files: seq<SelectedFile>): (r: seq<DataUrl>)
    ensures |r| == |files|
    ensures forall i :: 0 <= i < |files| ==> r[i] == files[i].dataUrl
  {
    seq(|files|, i requires 0 <= i < |files| => files[i].dataUrl)
  }

  /** The data URLs of the image files among `files`, in order. */
  function ImageUrls(files: seq<SelectedFile>): seq<DataUrl> {
    DataUrls(Seqs.Keep(files, IsImageFile))
  }

  /** Reading one more file adds its data URL when it is an image. */
  lemma ImageUrlsAppend(files: seq<SelectedFile>, f: SelectedFile)
    ensures ImageUrls(files + [f]) == ImageUrls(files) + (if IsImageFile(f) then [f.dataUrl] else [])
  {
    Seqs.KeepAppend(files, [f], IsImageFile);
    assert [f][1..] == [];
  }

  /** The data URLs a selection adds when `pendingCount` images are already waiting:
      the selection is cut to the slots left, then files whose type is not `image/...`
      are skipped (they still use up a slot). */
  function ImagesAccepted(pendingCount: nat, files: seq<SelectedFile>): (r: seq<DataUrl>)
    requires pendingCount < MaxPendingImages
    ensures pendingCount + |r| <= MaxPendingImages
    ensures |r| <= |files|
  {
    var slots := MaxPendingImages - pendingCount;
    ImageUrls(files[..if |files| < slots then |files| else slots])
  }

  /** Every accepted data URL is that of an image file of the selection. */
  lemma AcceptedUrlFromImageFile(pendingCount: nat, files: seq<SelectedFile>, k: int)
    requires pendingCount < MaxPendingImages
    requires 0 <= k < |ImagesAccepted(pendingCount, files)|
    ensures exists i :: 0 <= i < |files| && IsImageFile(files[i])
                        && files[i].dataUrl == ImagesAccepted(pendingCount, files)[k]
  {
    var slots := MaxPendingImages - pendingCount;
    var cut := files[..if |files| < slots then |files| else slots];
    var kept := Seqs.Keep(cut, IsImageFile);
    assert kept[k] in cut && IsImageFile(kept[k]);
    var i :| 0 <= i < |cut| && cut[i] == kept[k];
    assert files[i] == cut[i];
  }

  /** When there is room for the whole selection and every file is an image, all of
      them are accepted, in the order chosen. */
  lemma AllImagesFit(pendingCount: nat, files: seq<SelectedFile>)
    requires pendingCount + |files| <= MaxPendingImages && pendingCount < MaxPendingImages
    requires forall i :: 0 <= i < |files| ==> IsImageFile(files[i])
    ensures ImagesAccepted(pendingCount, files) == DataUrls(files)
  {
    assert files[..|files|] == files;
    Seqs.KeepAllIff(files, IsImageFile);
  }

  lemma DataUrlsAppend(a: seq<SelectedFile>, b: seq<SelectedFile>)
    ensures DataUrls(a + b) == DataUrls(a) + DataUrls(b)
  {
  }

  /** Every image file among the first free-slot files is accepted, and in order: its
      data URL comes right after those of the image files before it. */
  lemma ImageWithinSlotsAccepted(pendingCount: nat, files: seq<SelectedFile>, i: int)
    requires pendingCount < MaxPendingImages
    requires 0 <= i < |files| && i < MaxPendingImages - pendingCount
    requires IsImageFile(files[i])
    ensures |ImageUrls(files[..i])| < |ImagesAccepted(pendingCount, files)|
    ensures ImagesAccepted(pendingCount, files)[|ImageUrls(files[..i])|] == files[i].dataUrl
  {
    var slots := MaxPendingImages - pendingCount;
    var n := if |files| < slots then |files| else slots;
    var cut := files[..n];
    assert cut == files[..i] + ([files[i]] + cut[i + 1..]);
    Seqs.KeepAppend(files[..i], [files[i]] + cut[i + 1..], IsImageFile);
    Seqs.KeepAppend([files[i]], cut[i + 1..], IsImageFile);
    assert [files[i]][1..] == [];
    var before := Seqs.Keep(files[..i], IsImageFile);
    var kept := Seqs.Keep(cut, IsImageFile);
    assert kept == before + ([files[i]] + Seqs.Keep(cut[i + 1..], IsImageFile));
    assert kept[|before|] == files[i];
  }

  lemma ImageUrlsCons(f: SelectedFile, rest: seq<SelectedFile>)
    ensures ImageUrls([f] + rest) == (if IsImageFile(f) then [f.dataUrl] else []) + ImageUrls(rest)
  {
    Seqs.KeepAppend([f], rest, IsImageFile);
    assert [f][1..] == [];
    DataUrlsAppend(Seqs.Keep([f], IsImageFile), Seqs.Keep(rest, IsImageFile));
  }

  /** A selection takes its files one slot at a time: the first file uses up a slot
      whether or not it is an image, and adds its data URL only when it is one. */
  lemma ImagesAcceptedStep(pendingCount: nat, f: SelectedFile, rest: seq<SelectedFile>)
    requires pendingCount < MaxPendingImages
    ensures ImagesAccepted(pendingCount, [f] + rest)
         == (if IsImageFile(f) then [f.dataUrl] else [])
            + (if pendingCount + 1 < MaxPendingImages then ImagesAccepted(pendingCount + 1, rest) else [])
  {
    var files := [f] + rest;
    var slots := MaxPendingImages - pendingCount;
    var n := if |files| < slots then |files| else slots;
    var tail := rest[..n - 1];
    assert files[..n] == [f] + tail;
    ImageUrlsCons(f, tail);
    assert ImagesAccepted(pendingCount, files) == ImageUrls([f] + tail);
    if pendingCount + 1 < MaxPendingImages {
      assert ImagesAccepted(pendingCount + 1, rest) == ImageUrls(tail);
    } else {
      assert tail == [];
      assert ImageUrls(tail) == [];
    }
  }

  /** With one slot left, a non-image first file uses it up: nothing is accepted. */
  lemma NonImageUsesLastSlot(f: SelectedFile, rest: seq<SelectedFile>)
    requires !IsImageFile(f)
    ensures ImagesAccepted(MaxPendingImages - 1, [f] + rest) == []
  {
    ImagesAcceptedStep(MaxPendingImages - 1, f, rest);
  }

  /** `s.splice(index, 1)`: a negative index counts from the end, an index past the
      end removes nothing. */
  function SpliceOut<T>(s: seq<T>, index: int): (r: seq<T>)
    ensures 0 <= index < |s| ==> |r| == |s| - 1
    ensures 0 <= index < |s| ==> forall j :: 0 <= j < index ==> r[j] == s[j]
    ensures 0 <= index < |s| ==> forall j :: index <= j < |r| ==> r[j] == s[j + 1]
    ensures index >= |s| ==> r == s
    ensures -|s| <= index < 0 ==> r == s[..|s| + index] + s[|s| + index + 1..]
    ensures index < -|s| && s != [] ==> r == s[1..]
    ensures s == [] ==> r == []
  {
    var start := if index < 0 then (if |s| + index < 0 then 0 else |s| + index)
                 else (if index < |s| then index else |s|);
    if start < |s| then s[..start] + s[start + 1..] else s
  }

  /** The photos an upload adds to the gallery, `ids[i]` standing for the
      `Date.now() + Math.random()` id the i-th file's photo gets: one photo per image
      file, in the order chosen; other files add nothing. */
  function NewPhotos(files: seq<SelectedFile>, ids: seq<int>, now: int): (r: seq<Photo>)
    requires |ids| == |files|
    ensures |r| <= |files|
  {
    if files == [] then []
    else
      (if IsImageFile(files[0]) then [Photo(ids[0], files[0].dataUrl, now)] else [])
      + NewPhotos(files[1..], ids[1..], now)
  }

  /** Each new photo comes from an image file of the upload, with that file's id and
      data URL. */
  lemma {:induction false} NewPhotoFromImageFile(files: seq<SelectedFile>, ids: seq<int>, now: int, k: int)
    requires |ids| == |files|
    requires 0 <= k < |NewPhotos(files, ids, now)|
    ensures exists i :: 0 <= i < |files| && IsImageFile(files[i])
                        && NewPhotos(files, ids, now)[k] == Photo(ids[i], files[i].dataUrl, now)
  {
    var rest := NewPhotos(files[1..], ids[1..], now);
    if IsImageFile(files[0]) && k == 0 {
      assert NewPhotos(files, ids, now)[0] == Photo(ids[0], files[0].dataUrl, now);
    } else {
      var skip := if IsImageFile(files[0]) then 1 else 0;
      assert NewPhotos(files, ids, now)[k] == rest[k - skip];
      NewPhotoFromImageFile(files[1..], ids[1..], now, k - skip);
      var j :| 0 <= j < |files[1..]| && IsImageFile(files[1..][j])
               && rest[k - skip] == Photo(ids[1..][j], files[1..][j].dataUrl, now);
      assert files[j + 1] == files[1..][j] && ids[j + 1] == ids[1..][j];
    }
  }

  /** An upload of image files only gives one photo per file, in order. */
  lemma {:induction false} ImageUploadGivesAllPhotos(files: seq<SelectedFile>, ids: seq<int>, now: int)
    requires |ids| == |files|
    requires forall i :: 0 <= i < |files| ==> IsImageFile(files[i])
    ensures |NewPhotos(files, ids, now)| == |files|
    ensures forall i :: 0 <= i < |files| ==>
              NewPhotos(files, ids, now)[i] == Photo(ids[i], files[i].dataUrl, now)
  {
    if files != [] {
      ImageUploadGivesAllPhotos(files[1..], ids[1..], now);
      var r := NewPhotos(files, ids, now);
      forall i | 1 <= i < |files| ensures r[i] == Photo(ids[i], files[i].dataUrl, now) {
        assert files[1..][i - 1] == files[i] && ids[1..][i - 1] == ids[i];
      }
    }
  }

  lemma {:induction false} NewPhotosAppend(files: seq<SelectedFile>, ids: seq<int>, f: SelectedFile, id: int, now: int)
    requires |ids| == |files|
    ensures NewPhotos(files + [f], ids + [id], now)
              == NewPhotos(files, ids, now) + (if IsImageFile(f) then [Photo(id, f.dataUrl, now)] else [])
  {
    if files == [] {
      assert (files + [f])[1..] == [] && (ids + [id])[1..] == [];
    } else {
      assert (files + [f])[1..] == files[1..] + [f] && (ids + [id])[1..] == ids[1..] + [id];
      NewPhotosAppend(files[1..], ids[1..], f, id, now);
    }
  }

  /** Removing a preview takes out exactly that one image. */
  lemma SpliceOutRemovesOne<T>(s: seq<T>, index: int)
    requires 0 <= index < |s|
    ensures multiset(SpliceOut(s, index)) + multiset{s[index]} == multiset(s)
  {
    assert s == s[..index] + [s[index]] + s[index + 1..];
  }

  // ---------------------------------------------------------------------------
  // Composer text
  // ---------------------------------------------------------------------------

  /** The textarea's value after replacing the selection [start, end) with `inserted`. */
  function InsertAtSelection(text: JsString, start: nat, end: nat, inserted: JsString): (r: JsString)
    requires start <= end <= |text|
    ensures |r| == |text| - (end - start) + |inserted|
    ensures r[..start] == text[..start]
    ensures r[start..start + |inserted|] == inserted
    ensures r[start + |inserted|..] == text[end..]
  {
    text[..start] + inserted + text[end..]
  }

  /** Inserting `a` and then `b` at the caret left after `a` is inserting `a + b` once. */
  lemma {:induction false} InsertTwice(text: JsString, start: nat, end: nat, a: JsString, b: JsString)
    requires start <= end <= |text|
    ensures var once := InsertAtSelection(text, start, end, a);
            InsertAtSelection(once, start + |a|, start + |a|, b)
              == InsertAtSelection(text, start, end, a + b)
  {
    var once := InsertAtSelection(text, start, end, a);
    assert once[..start + |a|] == text[..start] + a;
  }

  // ---------------------------------------------------------------------------
  // Posts
  // ---------------------------------------------------------------------------

  /** A freshly published post: nobody has liked it yet. */
  function NewPost(now: int, content: JsString, images: seq<DataUrl>): (p: Post)
    ensures p.likes == 0 && !p.liked
    ensures p.id == now && p.createdAt == now
    ensures p.content == content && p.images == images
  {
    Post(now, content, images, 0, false, now)
  }

  /** A post's counter agrees with its own like: 1 when liked, 0 otherwise. */
  predicate LikeCountMatches(p: Post) {
    p.likes == if p.liked then 1 else 0
  }

  predicate AllLikeCountsMatch(posts: seq<Post>) {
    forall i :: 0 <= i < |posts| ==> LikeCountMatches(posts[i])
  }

  /** The post after a click on its like button. */
  function LikeToggled(p: Post): (r: Post)
    ensures r.liked == !p.liked
    ensures r.likes == if r.liked then p.likes + 1 else p.likes - 1
    ensures r.(liked := p.liked, likes := p.likes) == p
  {
    p.(liked := !p.liked, likes := p.likes + if !p.liked then 1 else -1)
  }

  lemma LikeToggledKeepsCount(p: Post)
    requires LikeCountMatches(p)
    ensures LikeCountMatches(LikeToggled(p))
  {
  }

  function FirstPostWithId(posts: seq<Post>, id: int): Option<nat> {
    Seqs.FirstIndex(posts, (p: Post) => p.id == id)
  }

  /** toggleLike on the list: the first post with that id is toggled, an unknown id
      changes nothing. */
  function WithLikeToggled(posts: seq<Post>, id: int): (r: seq<Post>)
    ensures |r| == |posts|
    ensures (forall i :: 0 <= i < |posts| ==> posts[i].id != id) ==> r == posts
    ensures forall i :: 0 <= i < |posts| && posts[i].id == id
                        && (forall j :: 0 <= j < i ==> posts[j].id != id)
                        ==> r == posts[i := LikeToggled(posts[i])]
  {
    match FirstPostWithId(posts, id)
    case None => posts
    case Some(i) => posts[i := LikeToggled(posts[i])]
  }

  /** deletePost on the list: every post with that id goes, the rest keep their order. */
  function WithoutPost(posts: seq<Post>, id: int): (r: seq<Post>)
    ensures forall i :: 0 <= i < |r| ==> r[i].id != id && r[i] in posts
    ensures forall i :: 0 <= i < |posts| && posts[i].id != id ==> posts[i] in r
  {
    Seqs.Keep(posts, (p: Post) => p.id != id)
  }

  /** deletePost removes exactly the posts with that id: what is left and what is
      removed together are the old posts. */
  lemma WithoutPostRemovesOnlyThatId(posts: seq<Post>, id: int)
    ensures multiset(WithoutPost(posts, id)) + multiset(Seqs.Keep(posts, (p: Post) => p.id == id))
            == multiset(posts)
  {
    Seqs.KeepSplits(posts, (p: Post) => p.id != id, (p: Post) => p.id == id);
  }

  /** deleteGalleryPhoto removes exactly the photos with that id. */
  lemma WithoutPhotoRemovesOnlyThatId(gallery: seq<Photo>, id: int)
    ensures multiset(Seqs.Keep(gallery, (p: Photo) => p.id != id))
            + multiset(Seqs.Keep(gallery, (p: Photo) => p.id == id))
            == multiset(gallery)
  {
    Seqs.KeepSplits(gallery, (p: Photo) => p.id != id, (p: Photo) => p.id == id);
  }

  /** A post list that only publishPost, toggleLike and deletePost have touched keeps
      every counter equal to its like. */
  lemma LikeCountsPreserved(posts: seq<Post>, now: int, content: JsString, images: seq<DataUrl>, id: int)
    requires AllLikeCountsMatch(posts)
    ensures AllLikeCountsMatch([NewPost(now, content, images)] + posts)
    ensures AllLikeCountsMatch(WithLikeToggled(posts, id))
    ensures AllLikeCountsMatch(WithoutPost(posts, id))
  {
    var r := WithLikeToggled(posts, id);
    match FirstPostWithId(posts, id)
    case None =>
    case Some(i) =>
      LikeToggledKeepsCount(posts[i]);
      assert r == posts[i := LikeToggled(posts[i])];
    var w := WithoutPost(posts, id);
    forall i | 0 <= i < |w| ensures LikeCountMatches(w[i]) {
      var k :| 0 <= k < |posts| && posts[k] == w[i];
    }
  }

  /** The `reduce` in updateStats: how many images the posts carry. */
  function ImageCount(posts: seq<Post>): nat {
    if posts == [] then 0 else |posts[0].images| + ImageCount(posts[1..])
  }

  lemma {:induction false} ImageCountAppend(a: seq<Post>, b: seq<Post>)
    ensures ImageCount(a + b) == ImageCount(a) + ImageCount(b)
  {
    if a == [] {
      assert a + b == b;
    } else {
      assert (a + b)[0] == a[0] && (a + b)[1..] == a[1..] + b;
      ImageCountAppend(a[1..], b);
    }
  }

  /** The photo total shown in the statistics: gallery photos plus post images. */
  function TotalPhotos(gallery: seq<Photo>, posts: seq<Post>): nat {
    |gallery| + ImageCount(posts)
  }

  /** Publishing a post raises the photo total by the images it carries. */
  lemma PublishAddsImages(gallery: seq<Photo>, posts: seq<Post>, p: Post)
    ensures TotalPhotos(gallery, [p] + posts) == TotalPhotos(gallery, posts) + |p.images|
  {
    assert ([p] + posts)[1..] == posts;
  }

  /** Deleting posts never raises the photo total. */
  lemma {:induction false} DeleteNeverAddsImages(posts: seq<Post>, keep: Post -> bool)
    ensures ImageCount(Seqs.Keep(posts, keep)) <= ImageCount(posts)
  {
    if posts != [] {
      DeleteNeverAddsImages(posts[1..], keep);
      var rest := Seqs.Keep(posts[1..], keep);
      if keep(posts[0]) {
        assert ([posts[0]] + rest)[1..] == rest;
      } else {
        assert [] + rest == rest;
      }
    }
  }

  /** The day counter: whole days since the site's start date, counting the first day
      as day 1 (Math.floor of the millisecond difference over a day, plus one). */
  function DayCount(nowMs: int, startMs: int): (r: int)
    ensures (r - 1) * MsPerDay <= nowMs - startMs < r * MsPerDay
  {
    (nowMs - startMs) / MsPerDay + 1
  }

  // ---------------------------------------------------------------------------
  // Viewer
  // ---------------------------------------------------------------------------

  /** navigateViewer's index update for a viewer holding `count` images. */
  function WrapIndex(index: int, direction: int, count: nat): (r: int)
    ensures count <= 1 ==> r == index
    ensures count > 1 ==> 0 <= r < count
    ensures count > 1 && 0 <= index + direction < count ==> r == index + direction
    ensures count > 1 && index + direction < 0 ==> r == count - 1
    ensures count > 1 && index + direction >= count ==> r == 0
  {
    if count <= 1 then index
    else
      var moved := index + direction;
      if moved < 0 then count - 1 else if moved >= count then 0 else moved
  }

  /** The previous button undoes the next button, and the other way round. */
  lemma StepBackUndoesStepForward(index: int, count: nat)
    requires 0 <= index < count && count > 1
    ensures WrapIndex(WrapIndex(index, 1, count), -1, count) == index
    ensures WrapIndex(WrapIndex(index, -1, count), 1, count) == index
  {
  }

  /** The index after pressing "next" `steps` times. */
  function StepsForward(index: int, steps: nat, count: nat): int {
    if steps == 0 then index else WrapIndex(StepsForward(index, steps - 1, count), 1, count)
  }

  lemma {:induction false} MulAtLeast(k: int, n: int)
    requires k >= 1 && n > 0
    ensures k * n >= n
  {
    if k > 1 {
      MulAtLeast(k - 1, n);
      assert k * n == (k - 1) * n + n;
    }
  }

  /** Division with remainder has one answer. */
  lemma DivModUnique(a: int, n: int, q: int, r: int)
    requires n > 0 && 0 <= r < n && a == q * n + r
    ensures a / n == q && a % n == r
  {
    var q', r' := a / n, a % n;
    assert a == q' * n + r' && 0 <= r' < n;
    assert (q' - q) * n == r - r';
    if q' - q >= 1 {
      MulAtLeast(q' - q, n);
      assert false;
    }
    if q - q' >= 1 {
      MulAtLeast(q - q', n);
      assert false;
    }
  }

  /** One more press of "next" in remainder form: the remainder goes up by one, or
      wraps to 0 when it reaches `n`. */
  lemma ModSuccessor(x: nat, n: nat)
    requires n > 1
    ensures (x + 1) % n == if x % n + 1 < n then x % n + 1 else 0
  {
    var q, m := x / n, x % n;
    assert x == q * n + m;
    if m + 1 < n {
      DivModUnique(x + 1, n, q, m + 1);
    } else {
      assert x + 1 == (q + 1) * n;
      DivModUnique(x + 1, n, q + 1, 0);
    }
  }

  /** Pressing "next" walks the images as a cycle: after `steps` presses the index is
      the start plus `steps`, modulo the number of images. */
  lemma {:induction false} StepsForwardIsModular(index: int, steps: nat, count: nat)
    requires 0 <= index < count && count > 1
    ensures StepsForward(index, steps, count) == (index + steps) % count
  {
    if steps > 0 {
      StepsForwardIsModular(index, steps - 1, count);
      ModSuccessor(index + steps - 1, count);
    }
  }

  // ---------------------------------------------------------------------------
  // Time labels
  // ---------------------------------------------------------------------------

  /** formatTime: under a minute "just now", then whole minutes below an hour, whole
      hours below a day, whole days below a week, and the local calendar date after. */
  function FormatTime(elapsedMs: int, date: LocalDate): (r: TimeLabel)
    ensures r.JustNow? <==> elapsedMs < MsPerMinute
    ensures r.MinutesAgo? <==> MsPerMinute <= elapsedMs < MsPerHour
    ensures r.HoursAgo? <==> MsPerHour <= elapsedMs < MsPerDay
    ensures r.DaysAgo? <==> MsPerDay <= elapsedMs < 7 * MsPerDay
    ensures r.CalendarDate? <==> 7 * MsPerDay <= elapsedMs
    ensures r.MinutesAgo? ==> 1 <= r.minutes < 60
                              && r.minutes * MsPerMinute <= elapsedMs < (r.minutes + 1) * MsPerMinute
    ensures r.HoursAgo? ==> 1 <= r.hours < 24
                            && r.hours * MsPerHour <= elapsedMs < (r.hours + 1) * MsPerHour
    ensures r.DaysAgo? ==> 1 <= r.days < 7
                           && r.days * MsPerDay <= elapsedMs < (r.days + 1) * MsPerDay
    ensures r.CalendarDate? ==> r == CalendarDate(date.year, date.monthIndex + 1, date.dayOfMonth)
  {
    var minutes := elapsedMs / MsPerMinute;
    var hours := elapsedMs / MsPerHour;
    var days := elapsedMs / MsPerDay;
    if minutes < 1 then JustNow
    else if minutes < 60 then MinutesAgo(minutes)
    else if hours < 24 then HoursAgo(hours)
    else if days < 7 then DaysAgo(days)
    else CalendarDate(date.year, date.monthIndex + 1, date.dayOfMonth)
  }

  // ---------------------------------------------------------------------------
  // Profile
  // ---------------------------------------------------------------------------

  /** One profile field as saveProfile stores it: the edited text trimmed, or the
      placeholder when nothing but white space is left. */
  function SavedField(edited: JsString, placeholder: JsString): JsString {
    OrElse(Trim(edited), placeholder)
  }

  function SavedProfile(name: JsString, bio: JsString, email: JsString,
                        wechat: JsString, other: JsString): Profile {
    Profile(SavedField(name, BlankProfile.name), SavedField(bio, BlankProfile.bio),
            SavedField(email, BlankProfile.email), SavedField(wechat, BlankProfile.wechat),
            SavedField(other, BlankProfile.other))
  }

  /** A saved field is never blank: it is the placeholder when the edit was all white
      space, and the trimmed edit (which starts and ends with a visible character)
      otherwise. The trimmed edit can itself be the placeholder's text. */
  lemma SavedFieldNeverBlank(edited: JsString, placeholder: JsString)
    requires placeholder != []
    ensures SavedField(edited, placeholder) != []
    ensures SavedField(edited, placeholder) == placeholder || SavedField(edited, placeholder) == Trim(edited)
    ensures AllWhiteSpace(edited) ==> SavedField(edited, placeholder) == placeholder
    ensures !AllWhiteSpace(edited) ==> SavedField(edited, placeholder) == Trim(edited)
  {
    TrimEmptyIff(edited);
  }

  // ---------------------------------------------------------------------------
  // The application state
  // ---------------------------------------------------------------------------

  /** APP_STATE together with the parts of the page the handlers read and write: the
      composer's text and selection, and whether the emoji picker and the image
      viewer are open. */
  class AppState {
    var posts: seq<Post>
    var gallery: seq<Photo>
    var profile: Profile
    var theme: JsString
    var pendingImages: seq<DataUrl>
    var currentGalleryIndex: int
    var currentViewerImages: seq<DataUrl>
    var startDate: Option<int>
    var draft: JsString
    var selectionStart: int
    var selectionEnd: int
    var emojiPickerOpen: bool
    var viewerOpen: bool

    /** At most nine images wait in the composer, and the selection lies inside the
        text (as a textarea guarantees). */
    ghost predicate Valid()
      reads this
    {
      && |pendingImages| <= MaxPendingImages
      && 0 <= selectionStart <= selectionEnd <= |draft|
    }

    /** The initial APP_STATE of a fresh page. */
    constructor ()
      ensures Valid()
      ensures posts == [] && gallery == [] && pendingImages == []
      ensures profile == InitialProfile && theme == Light
      ensures currentGalleryIndex == 0 && currentViewerImages == [] && startDate == None
      ensures draft == [] && selectionStart == 0 && selectionEnd == 0
      ensures !emojiPickerOpen && !viewerOpen
    {
      posts, gallery, pendingImages := [], [], [];
      profile, theme := InitialProfile, Light;
      currentGalleryIndex, currentViewerImages, startDate := 0, [], None;
      draft, selectionStart, selectionEnd := [], 0, 0;
      emojiPickerOpen, viewerOpen := false, false;
    }

    /** toggleTheme. */
    method ToggleTheme()
      modifies this`theme
      ensures theme == ToggledTheme(old(theme))
    {
      theme := ToggledTheme(theme);
    }

    /** The user editing the composer: the browser, not app.js, changes the text and
        moves the caret. */
    method EditDraft(text: JsString, start: int, end: int)
      requires Valid()
      requires 0 <= start <= end <= |text|
      modifies this`draft, this`selectionStart, this`selectionEnd
      ensures Valid()
      ensures draft == text && selectionStart == start && selectionEnd == end
    {
      draft, selectionStart, selectionEnd := text, start, end;
    }

    /** handleImageSelect, with every file read completing at once and in order. */
    method SelectImages(files: seq<SelectedFile>) returns (toast: Option<Toast>)
      requires Valid()
      modifies this`pendingImages
      ensures Valid()
      ensures files == [] ==> pendingImages == old(pendingImages) && toast == None
      ensures files != [] && |old(pendingImages)| >= MaxPendingImages ==>
                pendingImages == old(pendingImages) && toast == Some(Toast(Error, "最多只能上传9张图片"))
      ensures files != [] && |old(pendingImages)| < MaxPendingImages ==>
                pendingImages == old(pendingImages) + ImagesAccepted(|old(pendingImages)|, files)
                && toast == None
    {
      if |files| == 0 {
        return None;
      }
      var remainingSlots := MaxPendingImages - |pendingImages|;
      if remainingSlots <= 0 {
        return Some(Toast(Error, "最多只能上传9张图片"));
      }
      var toProcess := files[..if |files| < remainingSlots then |files| else remainingSlots];
      ReadImages(toProcess);
      return None;
    }

    /** The `forEach` over the files kept: each image file's data URL joins the
        previews once it is read. */
    method ReadImages(toProcess: seq<SelectedFile>)
      modifies this`pendingImages
      ensures pendingImages == old(pendingImages) + ImageUrls(toProcess)
    {
      var i := 0;
      while i < |toProcess|
        invariant 0 <= i <= |toProcess|
        invariant pendingImages == old(pendingImages) + ImageUrls(toProcess[..i])
      {
        assert toProcess[..i + 1] == toProcess[..i] + [toProcess[i]];
        ImageUrlsAppend(toProcess[..i], toProcess[i]);
        if IsImageFile(toProcess[i]) {
          pendingImages := pendingImages + [toProcess[i].dataUrl];
        }
        i := i + 1;
      }
      assert toProcess[..i] == toProcess;
    }

    /** removePreviewImage. */
    method RemovePreviewImage(index: int)
      requires Valid()
      modifies this`pendingImages
      ensures Valid()
      ensures pendingImages == SpliceOut(old(pendingImages), index)
    {
      pendingImages := SpliceOut(pendingImages, index);
    }

    /** toggleEmojiPicker. */
    method ToggleEmojiPicker()
      modifies this`emojiPickerOpen
      ensures emojiPickerOpen == !old(emojiPickerOpen)
    {
      emojiPickerOpen := !emojiPickerOpen;
    }

    /** insertEmoji: the emoji replaces the selection, the caret lands right after it
        and the picker closes. */
    method InsertEmoji(emoji: JsString)
      requires Valid()
      modifies this`draft, this`selectionStart, this`selectionEnd, this`emojiPickerOpen
      ensures Valid()
      ensures draft == InsertAtSelection(old(draft), old(selectionStart), old(selectionEnd), emoji)
      ensures selectionStart == selectionEnd == old(selectionStart) + |emoji|
      ensures draft[..selectionStart] == old(draft)[..old(selectionStart)] + emoji
      ensures draft[selectionEnd..] == old(draft)[old(selectionEnd)..]
      ensures !emojiPickerOpen
    {
      var start := selectionStart;
      draft := InsertAtSelection(draft, selectionStart, selectionEnd, emoji);
      selectionStart, selectionEnd := start + |emoji|, start + |emoji|;
      emojiPickerOpen := false;
    }

    /** publishPost at time `now` (used for both the id and the creation time). */
    method PublishPost(now: int) returns (toast: Toast)
      requires Valid()
      modifies this`posts, this`pendingImages, this`draft, this`selectionStart, this`selectionEnd
      ensures Valid()
      ensures AllLikeCountsMatch(old(posts)) ==> AllLikeCountsMatch(posts)
      ensures AllWhiteSpace(old(draft)) && old(pendingImages) == [] ==>
                && posts == old(posts) && pendingImages == old(pendingImages)
                && draft == old(draft) && selectionStart == old(selectionStart)
                && selectionEnd == old(selectionEnd)
                && toast == Toast(Error, "请输入内容或添加图片")
      ensures !(AllWhiteSpace(old(draft)) && old(pendingImages) == []) ==>
                && posts == [NewPost(now, Trim(old(draft)), old(pendingImages))] + old(posts)
                && pendingImages == [] && draft == [] && selectionStart == 0 && selectionEnd == 0
                && toast == Toast(Success, "发布成功！")
    {
      var content := Trim(draft);
      var images := pendingImages;
      TrimEmptyIff(draft);
      if content == [] && |images| == 0 {
        return Toast(Error, "请输入内容或添加图片");
      }
      if AllLikeCountsMatch(posts) {
        LikeCountsPreserved(posts, now, content, images, now);
      }
      posts := [NewPost(now, content, images)] + posts;
      draft, selectionStart, selectionEnd := [], 0, 0;
      pendingImages := [];
      return Toast(Success, "发布成功！");
    }

    /** deletePost, `confirmed` being the answer to the confirm() dialog. */
    method DeletePost(postId: int, confirmed: bool) returns (toast: Option<Toast>)
      modifies this`posts
      ensures !confirmed ==> posts == old(posts) && toast == None
      ensures confirmed ==> posts == WithoutPost(old(posts), postId)
                            && toast == Some(Toast(Info, "已删除"))
      ensures AllLikeCountsMatch(old(posts)) ==> AllLikeCountsMatch(posts)
    {
      if !confirmed {
        return None;
      }
      if AllLikeCountsMatch(posts) {
        LikeCountsPreserved(posts, 0, [], [], postId);
      }
      posts := WithoutPost(posts, postId);
      return Some(Toast(Info, "已删除"));
    }

    /** toggleLike. */
    method ToggleLike(postId: int)
      modifies this`posts
      ensures posts == WithLikeToggled(old(posts), postId)
      ensures AllLikeCountsMatch(old(posts)) ==> AllLikeCountsMatch(posts)
    {
      if AllLikeCountsMatch(posts) {
        LikeCountsPreserved(posts, 0, [], [], postId);
      }
      posts := WithLikeToggled(posts, postId);
    }

    /** openPostImageViewer: show the images of the first post with that id. */
    method OpenPostImageViewer(postId: int, imageIndex: int)
      modifies this`currentViewerImages, this`currentGalleryIndex, this`viewerOpen
      ensures FirstPostWithId(old(posts), postId).None? ==>
                currentViewerImages == old(currentViewerImages)
                && currentGalleryIndex == old(currentGalleryIndex) && viewerOpen == old(viewerOpen)
      ensures FirstPostWithId(old(posts), postId).Some? ==>
                var p := posts[FirstPostWithId(old(posts), postId).value];
                && currentViewerImages == p.images && currentGalleryIndex == imageIndex
                && viewerOpen == (old(viewerOpen) || p.images != [])
    {
      match FirstPostWithId(posts, postId)
      case None =>
      case Some(i) =>
        currentViewerImages := posts[i].images;
        currentGalleryIndex := imageIndex;
        OpenImageViewer();
    }

    /** processGalleryFiles, with every read completing at once and in order. */
    method AddGalleryPhotos(files: seq<SelectedFile>, ids: seq<int>, now: int) returns (toast: Toast)
      requires |ids| == |files|
      modifies this`gallery
      ensures gallery == old(gallery) + NewPhotos(files, ids, now)
      ensures toast == Toast(Success, "图片上传成功！")
    {
      var i := 0;
      while i < |files|
        invariant 0 <= i <= |files|
        invariant gallery == old(gallery) + NewPhotos(files[..i], ids[..i], now)
      {
        NewPhotosAppend(files[..i], ids[..i], files[i], ids[i], now);
        assert files[..i + 1] == files[..i] + [files[i]] && ids[..i + 1] == ids[..i] + [ids[i]];
        if IsImageFile(files[i]) {
          gallery := gallery + [Photo(ids[i], files[i].dataUrl, now)];
        }
        i := i + 1;
      }
      assert files[..i] == files && ids[..i] == ids;
      return Toast(Success, "图片上传成功！");
    }

    /** deleteGalleryPhoto: every photo with that id goes, the rest keep their order. */
    method DeleteGalleryPhoto(photoId: int, confirmed: bool) returns (toast: Option<Toast>)
      modifies this`gallery
      ensures !confirmed ==> gallery == old(gallery) && toast == None
      ensures confirmed ==> gallery == Seqs.Keep(old(gallery), (p: Photo) => p.id != photoId)
                            && toast == Some(Toast(Info, "照片已删除"))
    {
      if !confirmed {
        return None;
      }
      gallery := Seqs.Keep(gallery, (p: Photo) => p.id != photoId);
      return Some(Toast(Info, "照片已删除"));
    }

    /** openGalleryViewer. */
    method OpenGalleryViewer(index: int)
      modifies this`currentViewerImages, this`currentGalleryIndex, this`viewerOpen
      ensures |currentViewerImages| == |gallery|
      ensures forall k :: 0 <= k < |gallery| ==> currentViewerImages[k] == gallery[k].src
      ensures currentGalleryIndex == index
      ensures viewerOpen == (old(viewerOpen) || gallery != [])
    {
      var photos := gallery;
      currentViewerImages := seq(|photos|, k requires 0 <= k < |photos| => photos[k].src);
      currentGalleryIndex := index;
      OpenImageViewer();
    }

    /** openImageViewer: the viewer opens only when there is an image to show. */
    method OpenImageViewer()
      modifies this`viewerOpen
      ensures viewerOpen == (old(viewerOpen) || currentViewerImages != [])
    {
      if |currentViewerImages| == 0 {
        return;
      }
      viewerOpen := true;
    }

    /** closeImageViewer. */
    method CloseImageViewer()
      modifies this`viewerOpen
      ensures !viewerOpen
    {
      viewerOpen := false;
    }

    /** navigateViewer: with two images or more the index moves and wraps around, so
        it always ends inside the list; with fewer nothing happens. */
    method NavigateViewer(direction: int)
      modifies this`currentGalleryIndex
      ensures currentGalleryIndex == WrapIndex(old(currentGalleryIndex), direction, |currentViewerImages|)
      ensures |currentViewerImages| > 1 ==> 0 <= currentGalleryIndex < |currentViewerImages|
      ensures |currentViewerImages| <= 1 ==> currentGalleryIndex == old(currentGalleryIndex)
    {
      if |currentViewerImages| <= 1 {
        return;
      }
      currentGalleryIndex := currentGalleryIndex + direction;
      if currentGalleryIndex < 0 {
        currentGalleryIndex := |currentViewerImages| - 1;
      } else if currentGalleryIndex >= |currentViewerImages| {
        currentGalleryIndex := 0;
      }
    }

    /** handleKeyboard: keys act only while the viewer is open. */
    method HandleKeyboard(key: Key)
      modifies this`viewerOpen, this`currentGalleryIndex
      ensures !old(viewerOpen) ==> !viewerOpen && currentGalleryIndex == old(currentGalleryIndex)
      ensures old(viewerOpen) && key == Escape ==> !viewerOpen && currentGalleryIndex == old(currentGalleryIndex)
      ensures old(viewerOpen) && key == ArrowLeft ==>
                viewerOpen && currentGalleryIndex == WrapIndex(old(currentGalleryIndex), -1, |currentViewerImages|)
      ensures old(viewerOpen) && key == ArrowRight ==>
                viewerOpen && currentGalleryIndex == WrapIndex(old(currentGalleryIndex), 1, |currentViewerImages|)
      ensures old(viewerOpen) && key == OtherKey ==>
                viewerOpen && currentGalleryIndex == old(currentGalleryIndex)
    {
      if !viewerOpen {
        return;
      }
      match key
      case Escape => CloseImageViewer();
      case ArrowLeft => NavigateViewer(-1);
      case ArrowRight => NavigateViewer(1);
      case OtherKey =>
    }

    /** saveProfile, given the text of the five editable fields. */
    method SaveProfile(name: JsString, bio: JsString, email: JsString,
                       wechat: JsString, other: JsString) returns (toast: Toast)
      modifies this`profile
      ensures profile == SavedProfile(name, bio, email, wechat, other)
      ensures toast == Toast(Success, "资料已保存")
    {
      profile := SavedProfile(name, bio, email, wechat, other);
      return Toast(Success, "资料已保存");
    }

    /** updateStats: the post count, the photo total and, once a start date is known,
        the day counter. */
    method Stats(nowMs: int) returns (postCount: nat, photoCount: nat, dayCount: Option<int>)
      ensures postCount == |posts|
      ensures photoCount == |gallery| + ImageCount(posts)
      ensures dayCount.Some? <==> startDate.Some?
      ensures dayCount.Some? ==> (dayCount.value - 1) * MsPerDay <= nowMs - startDate.value < dayCount.value * MsPerDay
    {
      postCount := |posts|;
      photoCount := TotalPhotos(gallery, posts);
      dayCount := if startDate.Some? then Some(DayCount(nowMs, startDate.value)) else None;
    }

    /** loadFromStorage: a stored record replaces the state field by field, with a
        default for each field that is missing; a first visit only records the start
        date; a record that cannot be read or parsed changes nothing. */
    method LoadFromStorage(read: StorageRead, nowMs: int)
      modifies this`posts, this`gallery, this`profile, this`theme, this`startDate
      ensures read.Unreadable? ==>
                && posts == old(posts) && gallery == old(gallery) && profile == old(profile)
                && theme == old(theme) && startDate == old(startDate)
      ensures read.NothingStored? ==>
                && posts == old(posts) && gallery == old(gallery) && profile == old(profile)
                && theme == old(theme) && startDate == Some(nowMs)
      ensures read.Stored? ==>
                && posts == read.data.posts.GetOr([])
                && gallery == read.data.gallery.GetOr([])
                && profile == read.data.profile.GetOr(old(profile))
                && theme == OrElse(read.data.theme.GetOr([]), Light)
                && startDate == Some(read.data.startDate.GetOr(nowMs))
    {
      match read
      case Unreadable =>
      case NothingStored =>
        startDate := Some(nowMs);
      case Stored(data) =>
        posts := data.posts.GetOr([]);
        gallery := data.gallery.GetOr([]);
        profile := data.profile.GetOr(profile);
        theme := OrElse(data.theme.GetOr([]), Light);
        startDate := Some(data.startDate.GetOr(nowMs));
    }
  }
}
