/**
 * The editor preview of the "Related Posts" block: how many preview slots
 * are shown, which of them hold a backend post and which a placeholder, how
 * the slots are split into an upper and a lower row, and which layout
 * toggles and class names are switched on.
 *
 * React elements are abstracted to values: a slot is either an `Item`
 * carrying the backend post or a `Placeholder`; each carries the index it
 * was created for (the source uses that index in the element's key) and the
 * display switches it was given.
 */
module RelatedPosts {
  import opened Wrappers

  /** Upper bound of the "Number of posts" control. */
  const MaxPostsToShow: int := 6

  /** The most entries the upper row ever holds. */
  const UpperRowCapacity: nat := 3

  // ---------------------------------------------------------------------
  // Data model
  // ---------------------------------------------------------------------

  datatype Image = Image(src: string)

  /** A related post as the backend returns it. */
  datatype Post = Post(title: string, date: string, context: string, img: Option<Image>)

  /** The block's stored attributes. */
  datatype Attributes = Attributes(
    displayContext: bool,
    displayDate: bool,
    displayThumbnails: bool,
    postLayout: string,
    postsToShow: int)

  /** The three display switches every preview entry is rendered with. */
  datatype DisplayOptions = DisplayOptions(thumbnails: bool, date: bool, context: bool)

  /**
   * One element of the preview list, with the display switches passed to it
   * as props.
   */
  datatype Slot =
    | Item(index: nat, post: Post, options: DisplayOptions)
    | Placeholder(index: nat, options: DisplayOptions)

  /** The two preview rows; the lower row is absent when it is not rendered. */
  datatype Rows<T> = Rows(upper: seq<T>, lower: Option<seq<T>>)

  /** One button of the layout toolbar: clicking it stores `layout`. */
  datatype LayoutControl = LayoutControl(icon: string, layout: string, isActive: bool)

  /** A class name on the block's wrapper element. */
  datatype ClassToken = Named(name: string) | IsGrid | Columns(count: int)

  /** The image area of a rendered preview entry. */
  datatype ImageView = NoImage | PostImage(src: string, alt: string) | ImagePlaceholder

  /** What one preview entry shows; `None` sections are not rendered. */
  datatype EntryView = EntryView(image: ImageView, title: string, date: Option<string>, context: Option<string>)

  /** Everything `render` decides that does not belong to the UI framework. */
  datatype EditView = EditView(
    controls: seq<LayoutControl>,
    classes: seq<ClassToken>,
    rows: Rows<Slot>)

  // ---------------------------------------------------------------------
  // "Number of posts" control
  // ---------------------------------------------------------------------

  /**
   * The value the "Number of posts" control stores: the chosen value capped
   * at `MaxPostsToShow`. Only the upper bound is applied by the handler; the
   * control's own minimum of 1 is a UI hint, not enforced here.
   */
  function ClampPostsToShow(value: int): (stored: int)
    ensures stored <= MaxPostsToShow
    ensures stored <= value
    ensures stored == value || stored == MaxPostsToShow
  {
    if value < MaxPostsToShow then value else MaxPostsToShow
  }

  /** Storing a clamped value again leaves it unchanged. */
  lemma ClampIdempotent(value: int)
    ensures ClampPostsToShow(ClampPostsToShow(value)) == ClampPostsToShow(value)
  {
  }

  // ---------------------------------------------------------------------
  // Slot filling
  // ---------------------------------------------------------------------

  /** JavaScript truthiness of `posts[i]`: present and not `undefined`. */
  predicate HasPost(posts: seq<Option<Post>>, i: nat)
  {
    i < |posts| && posts[i].Some?
  }

  /** The element pushed for index `i`. */
  function SlotAt(posts: seq<Option<Post>>, i: nat, options: DisplayOptions): Slot
  {
    if HasPost(posts, i) then Item(i, posts[i].value, options) else Placeholder(i, options)
  }

  /** How many times the slot-filling loop runs: counting up from 0 while below `postsToShow`. */
  function SlotCount(postsToShow: int): (n: nat)
    ensures postsToShow >= 0 ==> n == postsToShow
    ensures postsToShow < 0 ==> n == 0
  {
    if postsToShow < 0 then 0 else postsToShow
  }

  /**
   * The preview list after `n` iterations of the push loop. Its contract is
   * what the loop promises: exactly `n` entries, entry `i` built from index `i`.
   */
  function PreviewSlots(posts: seq<Option<Post>>, n: nat, options: DisplayOptions): (slots: seq<Slot>)
    ensures |slots| == n
    ensures forall i :: 0 <= i < n ==> slots[i] == SlotAt(posts, i, options)
  {
    if n == 0 then [] else PreviewSlots(posts, n - 1, options) + [SlotAt(posts, n - 1, options)]
  }

  /**
   * The slot-filling loop of `render`: one entry per index below
   * `postsToShow`, the backend post when there is one, a placeholder otherwise.
   */
  method FillSlots(posts: seq<Option<Post>>, postsToShow: int, options: DisplayOptions)
    returns (displayPosts: seq<Slot>)
    ensures displayPosts == PreviewSlots(posts, SlotCount(postsToShow), options)
    ensures |displayPosts| == SlotCount(postsToShow)
    ensures forall i :: 0 <= i < |displayPosts| ==>
      && displayPosts[i].index == i
      && displayPosts[i].options == options
      && (displayPosts[i].Item? <==> HasPost(posts, i))
    ensures forall i :: 0 <= i < |displayPosts| && displayPosts[i].Item? ==>
      displayPosts[i].post == posts[i].value
  {
    displayPosts := [];
    var i := 0;
    while i < postsToShow
      invariant 0 <= i
      invariant i <= SlotCount(postsToShow)
      invariant displayPosts == PreviewSlots(posts, i, options)
    {
      if i < |posts| && posts[i].Some? {
        displayPosts := displayPosts + [Item(i, posts[i].value, options)];
      } else {
        displayPosts := displayPosts + [Placeholder(i, options)];
      }
      i := i + 1;
    }
  }

  /** Backend posts at or beyond `n` never appear in a preview of `n` slots. */
  lemma ExtraPostsNotShown(posts: seq<Option<Post>>, n: nat, options: DisplayOptions, j: nat, p: Post)
    requires j < |posts| && n <= j && posts[j] == Some(p)
    ensures Item(j, p, options) !in PreviewSlots(posts, n, options)
  {
  }

  // ---------------------------------------------------------------------
  // Row split
  // ---------------------------------------------------------------------

  /** `Array.prototype.slice(start, end)` for non-negative arguments: both are capped at the length. */
  function Slice<T>(s: seq<T>, start: nat, end: nat): (r: seq<T>)
    ensures |r| == if end <= start || |s| <= start then 0
                   else (if end < |s| then end else |s|) - start
    ensures forall k :: 0 <= k < |r| ==> r[k] == s[start + k]
  {
    var e := if end < |s| then end else |s|;
    if e <= start then [] else s[start..e]
  }

  /** `slice(start)`: everything from `start` on, empty past the end. */
  function SliceFrom<T>(s: seq<T>, start: nat): (r: seq<T>)
    ensures |r| == if |s| <= start then 0 else |s| - start
    ensures forall k :: 0 <= k < |r| ==> r[k] == s[start + k]
  {
    if |s| <= start then [] else s[start..]
  }

  /** The upper row's end index: 2 for 2, 4 or 5 entries, 3 for any other count. */
  function TopRowEnd(n: nat): (end: nat)
    ensures end == 2 <==> n in {2, 4, 5}
    ensures end == 3 <==> n !in {2, 4, 5}
  {
    if n == 2 || n == 4 || n == 5 then 2 else 3
  }

  /** The lower row's start index: 2 for 4 or 5 entries, 3 for any other count. */
  function BottomRowStart(n: nat): (start: nat)
    ensures start == 2 <==> n in {4, 5}
    ensures start == 3 <==> n !in {4, 5}
  {
    if n == 4 || n == 5 then 2 else 3
  }

  /**
   * Whether the lower row is rendered at all: only with more than three
   * entries, which are exactly the counts where the two cut points coincide.
   */
  predicate DisplayLowerRow(n: nat): (shown: bool)
    ensures shown <==> n > 3
    ensures shown ==> TopRowEnd(n) == BottomRowStart(n)
  {
    n > 3
  }

  /** The rows in reading order, upper then lower. */
  function Flatten<T>(rows: Rows<T>): seq<T>
  {
    rows.upper + rows.lower.GetOr([])
  }

  /**
   * `RelatedPostsPreviewRows`: the upper row never holds more than three
   * entries, the lower row exists exactly when there are more than three,
   * and reading the rows in order gives back every entry exactly once.
   */
  function PreviewRows<T>(entries: seq<T>): (rows: Rows<T>)
    ensures |rows.upper| <= UpperRowCapacity
    ensures rows.lower.Some? <==> |entries| > 3
    ensures Flatten(rows) == entries
  {
    var n := |entries|;
    var upper := Slice(entries, 0, TopRowEnd(n));
    var lower := if DisplayLowerRow(n) then Some(SliceFrom(entries, BottomRowStart(n))) else None;
    assert Flatten(Rows(upper, lower)) == entries by {
      if DisplayLowerRow(n) {
        assert entries == entries[..TopRowEnd(n)] + entries[TopRowEnd(n)..];
      }
    }
    Rows(upper, lower)
  }

  /**
   * The row sizes for each entry count: two above for 2, 4 or 5 entries,
   * otherwise up to three above, and the rest below.
   */
  lemma RowSizes<T>(entries: seq<T>)
    ensures var n := |entries|; var rows := PreviewRows(entries);
      && (n <= 3 ==> rows.upper == entries && rows.lower == None)
      && (n == 4 || n == 5 ==> |rows.upper| == 2 && |rows.lower.value| == n - 2)
      && (n >= 6 ==> |rows.upper| == 3 && |rows.lower.value| == n - 3)
  {
  }

  /**
   * With the count stored by the control, the preview has at most six
   * entries and neither row holds more than three.
   */
  lemma ClampedPreviewFits(posts: seq<Option<Post>>, value: int, options: DisplayOptions)
    ensures var slots := PreviewSlots(posts, SlotCount(ClampPostsToShow(value)), options);
      var rows := PreviewRows(slots);
      && |slots| <= MaxPostsToShow
      && |rows.upper| <= 3
      && (rows.lower.Some? ==> |rows.lower.value| <= 3)
  {
  }

  // ---------------------------------------------------------------------
  // Layout toggles and class names
  // ---------------------------------------------------------------------

  /** The toolbar's two buttons, grid first. */
  function LayoutControls(postLayout: string): (controls: seq<LayoutControl>)
    ensures |controls| == 2
    ensures controls[0].layout == "grid" && controls[1].layout == "list"
    ensures forall c :: c in controls ==> (c.isActive <==> postLayout == c.layout)
  {
    [ LayoutControl("grid-view", "grid", postLayout == "grid"),
      LayoutControl("list-view", "list", postLayout == "list") ]
  }

  /** At most one button is active, and clicking a button makes it the active one. */
  lemma LayoutControlsExclusive(postLayout: string, i: nat, j: nat)
    requires i < 2 && j < 2
    ensures LayoutControls(postLayout)[i].isActive && LayoutControls(postLayout)[j].isActive ==> i == j
    ensures LayoutControls(LayoutControls(postLayout)[i].layout)[i].isActive
  {
  }

  /**
   * The wrapper's class names: the block's own class name unless it is
   * empty, then `is-grid` and `columns-<postsToShow>` for the grid layout only.
   */
  function WrapperClasses(className: string, postLayout: string, postsToShow: int): (classes: seq<ClassToken>)
    ensures IsGrid in classes <==> postLayout == "grid"
    ensures forall n :: Columns(n) in classes <==> postLayout == "grid" && n == postsToShow
    ensures forall name :: Named(name) in classes <==> name == className && className != ""
  {
    var named := if className != "" then [Named(className)] else [];
    named + if postLayout == "grid" then [IsGrid, Columns(postsToShow)] else []
  }

  // ---------------------------------------------------------------------
  // Preview entries
  // ---------------------------------------------------------------------

  /** The display switches `render` reads from the block's attributes. */
  function Options(attributes: Attributes): (options: DisplayOptions)
    ensures options.thumbnails == attributes.displayThumbnails
    ensures options.date == attributes.displayDate
    ensures options.context == attributes.displayContext
  {
    DisplayOptions(attributes.displayThumbnails, attributes.displayDate, attributes.displayContext)
  }

  /** `post.img && post.img.src`: an image with a non-empty source. */
  predicate HasImage(post: Post)
  {
    post.img.Some? && post.img.value.src != ""
  }

  /** `RelatedPostsEditItem`: a backend post's entry. */
  function ItemView(post: Post, options: DisplayOptions): (v: EntryView)
    ensures v.image != ImagePlaceholder
    ensures v.image.PostImage? <==> options.thumbnails && HasImage(post)
    ensures v.image.PostImage? ==> v.image == PostImage(post.img.value.src, post.title)
    ensures v.title == post.title
    ensures v.date.Some? <==> options.date
    ensures v.context.Some? <==> options.context
    ensures v.date.Some? ==> v.date.value == post.date
    ensures v.context.Some? ==> v.context.value == post.context
  {
    EntryView(
      if options.thumbnails && HasImage(post) then PostImage(post.img.value.src, post.title) else NoImage,
      post.title,
      if options.date then Some(post.date) else None,
      if options.context then Some(post.context) else None)
  }

  /** `PlaceholderPostEdit`: fixed sample text in place of a post. */
  function PlaceholderView(options: DisplayOptions): (v: EntryView)
    ensures v.image == (if options.thumbnails then ImagePlaceholder else NoImage)
    ensures v.date.Some? <==> options.date
    ensures v.context.Some? <==> options.context
  {
    EntryView(
      if options.thumbnails then ImagePlaceholder else NoImage,
      "Related Posts will only display when you have 10 public posts",
      if options.date then Some("August 3, 2018") else None,
      if options.context then Some("In \"Uncategorized\"") else None)
  }

  /** What an element of the preview list renders, under its own switches. */
  function SlotView(slot: Slot): EntryView
  {
    match slot
    case Item(_, post, options) => ItemView(post, options)
    case Placeholder(_, options) => PlaceholderView(options)
  }

  /**
   * Every entry of one preview shows the same sections: a date and a
   * context exactly when switched on; an image area only with thumbnails on,
   * where a placeholder always has one and a post only when it has an image.
   */
  lemma EntriesAgreeOnSections(posts: seq<Option<Post>>, n: nat, options: DisplayOptions, i: nat)
    requires i < n
    ensures var v := SlotView(PreviewSlots(posts, n, options)[i]);
      && (v.date.Some? <==> options.date)
      && (v.context.Some? <==> options.context)
      && (v.image != NoImage ==> options.thumbnails)
      && (v.image == ImagePlaceholder <==> options.thumbnails && !HasPost(posts, i))
  {
  }

  // ---------------------------------------------------------------------
  // render
  // ---------------------------------------------------------------------

  /**
   * `RelatedPostsEdit.render`: the toolbar, the wrapper's classes and the
   * two preview rows over the filled slots.
   */
  method Render(attributes: Attributes, className: string, posts: seq<Option<Post>>) returns (view: EditView)
    ensures view.controls == LayoutControls(attributes.postLayout)
    ensures view.classes == WrapperClasses(className, attributes.postLayout, attributes.postsToShow)
    ensures view.rows == PreviewRows(PreviewSlots(posts, SlotCount(attributes.postsToShow), Options(attributes)))
    ensures Flatten(view.rows) == PreviewSlots(posts, SlotCount(attributes.postsToShow), Options(attributes))
    ensures view.rows.lower.Some? <==> attributes.postsToShow > 3
    ensures forall slot :: slot in Flatten(view.rows) ==>
      && slot.options.thumbnails == attributes.displayThumbnails
      && slot.options.date == attributes.displayDate
      && slot.options.context == attributes.displayContext
  {
    var displayPosts := FillSlots(posts, attributes.postsToShow, Options(attributes));
    view := EditView(
      LayoutControls(attributes.postLayout),
      WrapperClasses(className, attributes.postLayout, attributes.postsToShow),
      PreviewRows(displayPosts));
  }
}
