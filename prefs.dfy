/** The app's preferences (`Prefs.kt`): the favourite item ids, the page the app
    opens on and that page's tag, kept in a key-value store. A stored field is
    `None` while its key is absent from the store. */
module Prefs {

  import opened Wrappers
  import opened Ints
  import opened Text

  const DEFAULT_OPENING_PAGE: Int64 := 107
  const DEFAULT_OPENING_PAGE_TAG: string := "flea"
  /** The drawer item whose tag is written as the ammunition page. */
  const AMMUNITION_ITEM: int := 101
  const AMMUNITION_TAG: string := "ammunition/{caliber}"
  /** A caliber stored by older versions in place of the placeholder. */
  const OLD_CALIBER: string := "Caliber762x35"
  const CALIBER_PLACEHOLDER: string := "{caliber}"

  /** The `openingPageTag` getter on what the store holds: the stored tag or
      "flea", with every old caliber replaced by the placeholder. */
  function ReadTag(stored: Option<string>): string {
    ReplaceAll(stored.GetOr(DEFAULT_OPENING_PAGE_TAG), OLD_CALIBER, CALIBER_PLACEHOLDER)
  }

  /** Without a stored tag the app opens on the flea market. */
  lemma ReadTagDefault()
    ensures ReadTag(None) == "flea"
  {
    NotContainsFirst("flea", OLD_CALIBER);
    ReplaceAllAbsent("flea", OLD_CALIBER, CALIBER_PLACEHOLDER);
  }

  /** A tag without the old caliber reads back as it was stored. */
  lemma ReadTagUnchanged(tag: string)
    requires !Contains(tag, OLD_CALIBER)
    ensures ReadTag(Some(tag)) == tag
  {
    ReplaceAllAbsent(tag, OLD_CALIBER, CALIBER_PLACEHOLDER);
  }

  /** The ammunition tag reads back as it was stored. */
  lemma ReadTagAmmunition()
    ensures ReadTag(Some(AMMUNITION_TAG)) == AMMUNITION_TAG
  {
    NotContainsFirst(AMMUNITION_TAG, OLD_CALIBER);
    ReadTagUnchanged(AMMUNITION_TAG);
  }

  /** An ammunition tag saved with the old caliber reads back as the ammunition
      tag with the placeholder. */
  lemma ReadTagOldCaliber()
    ensures ReadTag(Some("ammunition/" + OLD_CALIBER)) == AMMUNITION_TAG
  {
    ReplaceAllAfterPlain("ammunition/", OLD_CALIBER, "", CALIBER_PLACEHOLDER);
    assert "ammunition/" + OLD_CALIBER + "" == "ammunition/" + OLD_CALIBER;
  }

  /** No stored tag reads back with the old caliber in it. */
  lemma ReadTagNoOldCaliber(stored: Option<string>)
    ensures !Contains(ReadTag(stored), OLD_CALIBER)
  {
    assert OLD_CALIBER[0] !in CALIBER_PLACEHOLDER;
    assert CALIBER_PLACEHOLDER[0] !in OLD_CALIBER;
    ReplaceAllRemovesAll(stored.GetOr(DEFAULT_OPENING_PAGE_TAG), OLD_CALIBER, CALIBER_PLACEHOLDER);
  }

  /** The first old caliber in a stored tag reads back as the placeholder, and
      the text after it is read the same way. */
  lemma ReadTagSplitsAtFirst(a: string, b: string)
    requires !Contains(a, OLD_CALIBER)
    ensures ReadTag(Some(a + OLD_CALIBER + b)) == a + CALIBER_PLACEHOLDER + ReadTag(Some(b))
  {
    assert OLD_CALIBER[0] !in OLD_CALIBER[1..];
    ReplaceAllAfterFree(a, OLD_CALIBER, b, CALIBER_PLACEHOLDER);
  }

  /** Reading a tag that was read before changes nothing. */
  lemma ReadTagIdempotent(stored: Option<string>)
    ensures ReadTag(Some(ReadTag(stored))) == ReadTag(stored)
  {
    ReadTagNoOldCaliber(stored);
    ReadTagUnchanged(ReadTag(stored));
  }

  /** Kotlin's `Any?.toString()` on the drawer item's tag: a null tag is "null". */
  function TagText(tag: Option<string>): (r: string)
    ensures tag.Some? ==> r == tag.value
    ensures tag.None? ==> r == "null"
  {
    tag.GetOr("null")
  }

  /** The favourites after `addFavorite(id)` when `before` was read. */
  function WithFavorite(before: set<string>, id: string): (r: set<string>)
    ensures id in r && r - {id} == before - {id}
  {
    before + {id}
  }

  /** The favourites after `removeFavorite(id)` when `before` was read. */
  function WithoutFavorite(before: set<string>, id: string): (r: set<string>)
    ensures id !in r && r + {id} == before + {id}
  {
    before - {id}
  }

  /** Adding a favourite twice is adding it once; removing undoes adding one
      that was not there. */
  lemma FavoriteRoundTrip(before: set<string>, id: string)
    ensures WithFavorite(WithFavorite(before, id), id) == WithFavorite(before, id)
    ensures id !in before ==> WithoutFavorite(WithFavorite(before, id), id) == before
    ensures id in before ==> WithFavorite(WithoutFavorite(before, id), id) == before
  {
  }

  class Prefs {
    var favoriteStore: Option<set<string>>
    var pageStore: Option<Int64>
    var tagStore: Option<string>

    /** Preferences as the store holds them when the app starts. */
    constructor (favorites: Option<set<string>>, page: Option<Int64>, tag: Option<string>)
      ensures favoriteStore == favorites && pageStore == page && tagStore == tag
    {
      favoriteStore, pageStore, tagStore := favorites, page, tag;
    }

    /** The `favoriteItems` getter: the stored set, or the empty set. */
    function FavoriteItems(): (r: set<string>)
      reads this
      ensures favoriteStore.None? ==> r == {}
      ensures favoriteStore.Some? ==> r == favoriteStore.value
    {
      favoriteStore.GetOr({})
    }

    /** The `openingPage` getter: the stored page, or 107. */
    function OpeningPage(): (r: Int64)
      reads this
      ensures pageStore.None? ==> r == 107
      ensures pageStore.Some? ==> r == pageStore.value
    {
      pageStore.GetOr(DEFAULT_OPENING_PAGE)
    }

    /** The `openingPageTag` getter: "flea" when no tag is stored, never the old
        caliber. */
    function OpeningPageTag(): (r: string)
      reads this
      ensures tagStore.None? ==> r == "flea"
      ensures !Contains(r, OLD_CALIBER)
      ensures tagStore.Some? && !Contains(tagStore.value, OLD_CALIBER) ==> r == tagStore.value
    {
      ReadTagDefault();
      ReadTagNoOldCaliber(tagStore);
      assert tagStore.Some? && !Contains(tagStore.value, OLD_CALIBER) ==> ReadTag(tagStore) == tagStore.value by {
        if tagStore.Some? && !Contains(tagStore.value, OLD_CALIBER) {
          ReadTagUnchanged(tagStore.value);
        }
      }
      ReadTag(tagStore)
    }

    /** `setOpeningItem`: the page becomes the drawer item's identifier; the tag
        becomes the ammunition tag when the identifier truncated to an `Int` is
        101, and the item's tag as text otherwise. */
    method SetOpeningItem(identifier: Int64, tag: Option<string>)
      modifies this
      ensures pageStore == Some(identifier) && OpeningPage() == identifier
      ensures Wrap32(identifier) == AMMUNITION_ITEM ==> tagStore == Some(AMMUNITION_TAG) && OpeningPageTag() == AMMUNITION_TAG
      ensures Wrap32(identifier) != AMMUNITION_ITEM ==> tagStore == Some(TagText(tag))
      ensures favoriteStore == old(favoriteStore)
    {
      if Wrap32(identifier) == AMMUNITION_ITEM {
        pageStore := Some(identifier);
        tagStore := Some(AMMUNITION_TAG);
        ReadTagAmmunition();
      } else {
        pageStore := Some(identifier);
        tagStore := Some(TagText(tag));
      }
    }

    /** `addFavorite`: the favourites read now, with `id`. */
    method AddFavorite(id: string)
      modifies this
      ensures favoriteStore == Some(WithFavorite(old(FavoriteItems()), id))
      ensures id in FavoriteItems()
      ensures pageStore == old(pageStore) && tagStore == old(tagStore)
    {
      var s: set<string> := {};
      if favoriteStore.Some? {
        s := s + favoriteStore.value;
      }
      assert s == FavoriteItems();
      s := s + {id};
      favoriteStore := Some(s);
    }

    /** `removeFavorite`: the favourites read now, without `id`. */
    method RemoveFavorite(id: string)
      modifies this
      ensures favoriteStore == Some(WithoutFavorite(old(FavoriteItems()), id))
      ensures id !in FavoriteItems()
      ensures pageStore == old(pageStore) && tagStore == old(tagStore)
    {
      var s: set<string> := {};
      if favoriteStore.Some? {
        s := s + favoriteStore.value;
      }
      assert s == FavoriteItems();
      s := s - {id};
      favoriteStore := Some(s);
    }
  }

  /** The identifier is truncated to 32 bits before it is compared with 101, so a
      `Long` identifier 2^32 above 101 is also taken for the ammunition item. */
  lemma AmmunitionIdentifierAliases()
    ensures Wrap32(0x1_0000_0000 + AMMUNITION_ITEM) == AMMUNITION_ITEM
  {
  }
}
