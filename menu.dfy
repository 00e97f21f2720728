/** The customer menu page (src/app/menu/page.tsx): the received items,
    the category list built from them, and one section per category. */
module MenuPage {
  import opened Types
  import opened Seqs
  import opened Text
  import UpdateOrder

  const ImageSuffix: string := ".jpg"
  const MenuLoadFailed: string := "Could not load the menu. Please try refreshing the page."

  /** One received item: `image` is `imageUrl` with ".jpg" appended. */
  function MenuPageItem(w: WireMenuItem): MenuItem
  {
    MenuItem(w.wireId, w.name, w.description, w.price, w.imageUrl + ImageSuffix, w.category)
  }

  function MenuPageItems(ws: seq<WireMenuItem>): seq<MenuItem>
  {
    seq(|ws|, i requires 0 <= i < |ws| => MenuPageItem(ws[i]))
  }

  /** Every field is copied from the wire item, and the image name is the
      wire URL followed by ".jpg", so dropping the suffix gives it back. */
  lemma MenuPageItemSpec(w: WireMenuItem)
    ensures MenuPageItem(w).id == w.wireId && MenuPageItem(w).name == w.name
    ensures MenuPageItem(w).description == w.description && MenuPageItem(w).price == w.price
    ensures MenuPageItem(w).category == w.category
    ensures |MenuPageItem(w).image| == |w.imageUrl| + 4
    ensures MenuPageItem(w).image[..|w.imageUrl|] == w.imageUrl
    ensures MenuPageItem(w).image[|w.imageUrl|..] == ".jpg"
  {
  }

  /** `Array.from(new Set(items.map(item => item.category)))`. */
  function MenuCategories(items: seq<MenuItem>): seq<string>
  {
    Dedupe(UpdateOrder.Categories(items))
  }

  /** The category list names each category of the menu exactly once,
      nothing else, in the order each first appears among the items. */
  lemma MenuCategoriesSpec(items: seq<MenuItem>)
    ensures NoDuplicates(MenuCategories(items))
    ensures forall c :: c in MenuCategories(items) <==> exists i :: 0 <= i < |items| && items[i].category == c
    ensures forall i, j :: 0 <= i < j < |MenuCategories(items)| ==>
      IndexOf(UpdateOrder.Categories(items), MenuCategories(items)[i])
      < IndexOf(UpdateOrder.Categories(items), MenuCategories(items)[j])
  {
    DedupeFirstOccurrence(UpdateOrder.Categories(items));
    UpdateOrder.DedupeCategories(items);
  }

  /** The section id: lower case, each " & " then each space replaced by "-". */
  function SectionId(category: string): string
  {
    ReplaceAll(ReplaceAll(LowerAscii(category), " & ", "-"), " ", "-")
  }

  /** A section id has no spaces and no upper-case ASCII letters. */
  lemma SectionIdSpec(category: string)
    ensures forall i :: 0 <= i < |SectionId(category)| ==>
      SectionId(category)[i] != ' ' && !('A' <= SectionId(category)[i] <= 'Z')
  {
    var lower := LowerAscii(category);
    var mid := ReplaceAll(lower, " & ", "-");
    ReplaceAllChars(lower, " & ", "-");
    ReplaceSpaces(mid);
    forall i | 0 <= i < |SectionId(category)|
      ensures SectionId(category)[i] != ' ' && !('A' <= SectionId(category)[i] <= 'Z')
    {
      if mid[i] != ' ' {
        assert mid[i] in mid;
        assert mid[i] in lower || mid[i] in "-";
      }
    }
  }

  /** The items shown in a category's section. */
  function SectionItems(items: seq<MenuItem>, category: string): seq<MenuItem>
  {
    Filter(UpdateOrder.CategoryIs(category), items)
  }

  /** A section lists exactly the items of its category. Every item shows in
      the section of its own category, which is on the list, and that
      section is never empty. */
  lemma SectionItemsSpec(items: seq<MenuItem>)
    ensures forall c, x :: x in SectionItems(items, c) <==> x in items && x.category == c
    ensures forall i :: 0 <= i < |items| ==>
      items[i].category in MenuCategories(items) && items[i] in SectionItems(items, items[i].category)
    ensures forall c :: c in MenuCategories(items) ==> |SectionItems(items, c)| > 0
  {
    MenuCategoriesSpec(items);
    forall c, x | x in items && x.category == c ensures x in SectionItems(items, c) {
      var i :| 0 <= i < |items| && items[i] == x;
      assert UpdateOrder.CategoryIs(c)(items[i]);
    }
    forall c | c in MenuCategories(items) ensures |SectionItems(items, c)| > 0 {
      var i :| 0 <= i < |items| && items[i].category == c;
      assert items[i] in SectionItems(items, c);
    }
  }

  /** What the page holds once `fetchMenu` settles. */
  datatype MenuState = MenuState(items: seq<MenuItem>, categories: seq<string>, error: Option<string>, loading: bool)

  /** `fetchMenu`: an array body gives the items and their categories; a
      failed request or a body that is not an array leaves both empty and
      sets the message. Loading ends either way. */
  function LoadMenu(response: FetchResult<Option<seq<WireMenuItem>>>): MenuState
  {
    if response.Fetched? && response.body.Some? then
      var items := MenuPageItems(response.body.value);
      MenuState(items, MenuCategories(items), None, false)
    else
      MenuState([], [], Some(MenuLoadFailed), false)
  }

  /** After loading, every category button leads to a non-empty section,
      the buttons are distinct, and every received item is in a section; on
      failure there is nothing to show and the message is set. */
  lemma LoadMenuSpec(response: FetchResult<Option<seq<WireMenuItem>>>)
    ensures !LoadMenu(response).loading
    ensures LoadMenu(response).error.None? <==> response.Fetched? && response.body.Some?
    ensures LoadMenu(response).error.Some? ==> LoadMenu(response).items == [] && LoadMenu(response).categories == []
    ensures NoDuplicates(LoadMenu(response).categories)
    ensures forall c :: c in LoadMenu(response).categories ==> |SectionItems(LoadMenu(response).items, c)| > 0
    ensures LoadMenu(response).error.None? ==>
      |LoadMenu(response).items| == |response.body.value|
      && forall i :: 0 <= i < |LoadMenu(response).items| ==>
        LoadMenu(response).items[i] == MenuPageItem(response.body.value[i])
        && LoadMenu(response).items[i].category in LoadMenu(response).categories
  {
    var st := LoadMenu(response);
    SectionItemsSpec(st.items);
  }
}
