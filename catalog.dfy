/**
 * The local catalog store (src/lib/supabase.ts): the menu, category and
 * admin-action lists kept under the storage keys `menuItems`, `categories`
 * and `adminActions` when no remote service is configured.  A stored list is
 * `Some(list)`; a key that was never written is `None`.
 */
module Catalog {
  import opened Wrappers
  import Strings
  import Lists

  // ---------------------------------------------------------------------------
  // Configuration
  // ---------------------------------------------------------------------------

  const PlaceholderUrl: string := "https://your-project.supabase.co"
  const PlaceholderKey: string := "your-anon-key"

  /** The service URL: the build-time variable, or the placeholder when it is unset or empty. */
  function ServiceUrl(envUrl: Option<string>): string
  {
    Strings.Fallback(envUrl, PlaceholderUrl)
  }

  /** The anonymous key: the build-time variable, or the placeholder when it is unset or empty. */
  function ServiceKey(envKey: Option<string>): string
  {
    Strings.Fallback(envKey, PlaceholderKey)
  }

  /** `isSupabaseConfigured`: neither the URL nor the key is its placeholder. */
  function IsSupabaseConfigured(envUrl: Option<string>, envKey: Option<string>): (configured: bool)
    ensures envUrl.None? || envKey.None? ==> !configured
    ensures configured ==> ServiceUrl(envUrl) == envUrl.value && ServiceKey(envKey) == envKey.value
  {
    ServiceUrl(envUrl) != PlaceholderUrl && ServiceKey(envKey) != PlaceholderKey
  }

  /** The remote service is used exactly when both variables are set, non-empty and not the placeholders. */
  lemma ConfiguredIff(envUrl: Option<string>, envKey: Option<string>)
    ensures IsSupabaseConfigured(envUrl, envKey) <==>
              && envUrl.Some? && envUrl.value != "" && envUrl.value != PlaceholderUrl
              && envKey.Some? && envKey.value != "" && envKey.value != PlaceholderKey
  {
    assert |PlaceholderUrl| > 0 && |PlaceholderKey| > 0;
  }

  // ---------------------------------------------------------------------------
  // Entities
  // ---------------------------------------------------------------------------

  datatype MenuItem = MenuItem(id: int, name: string, description: string, price: string,
                               image: string, category: string, isPopular: bool)

  /** What `menuService.create` receives: a menu item without its id. */
  datatype MenuDraft = MenuDraft(name: string, description: string, price: string,
                                 image: string, category: string, isPopular: bool)

  /** `Partial<MenuItem>`: each field either given or absent. */
  datatype MenuPatch = MenuPatch(id: Option<int>, name: Option<string>, description: Option<string>,
                                 price: Option<string>, image: Option<string>, category: Option<string>,
                                 isPopular: Option<bool>)

  datatype Category = Category(id: int, name: string, description: string)

  datatype CategoryDraft = CategoryDraft(name: string, description: string)

  datatype CategoryPatch = CategoryPatch(id: Option<int>, name: Option<string>, description: Option<string>)

  /** What `logAction` receives: an admin action without its id and timestamp. */
  datatype ActionDraft = ActionDraft(actionType: string, actionDescription: string,
                                     adminUser: string, targetItem: Option<string>)

  datatype AdminAction = AdminAction(id: int, actionType: string, actionDescription: string,
                                     adminUser: string, targetItem: Option<string>, createdAt: string)

  /** The errors the local branches throw. */
  datatype CatalogError = DuplicateName | ItemNotFound | CategoryNotFound

  /** The message each error is thrown with. */
  function Message(e: CatalogError): (m: string)
    ensures |m| > 0
  {
    match e
    case DuplicateName => "يوجد بالفعل طبق بهذا الاسم"
    case ItemNotFound => "Item not found"
    case CategoryNotFound => "Category not found"
  }

  /** The three messages are distinct, so a caller can tell the errors apart by their text. */
  lemma MessagesDistinct()
    ensures Message(DuplicateName) != Message(ItemNotFound)
    ensures Message(DuplicateName) != Message(CategoryNotFound)
    ensures Message(ItemNotFound) != Message(CategoryNotFound)
  {
    assert |Message(ItemNotFound)| != |Message(CategoryNotFound)|;
    assert Message(DuplicateName)[0] != Message(ItemNotFound)[0];
    assert Message(DuplicateName)[0] != Message(CategoryNotFound)[0];
  }

  function MenuId(m: MenuItem): int { m.id }

  function CategoryId(c: Category): int { c.id }

  // ---------------------------------------------------------------------------
  // Default data
  // ---------------------------------------------------------------------------

  /** The three items a missing menu list is seeded with. */
  const DefaultMenu: seq<MenuItem> := [
    MenuItem(1, "مشاوي مشكلة", "مجموعة متنوعة من اللحوم المشوية مع الخضار والأرز",
             "720 جنيه مصري", "/src/assets/grilled-meat.jpg", "الأطباق الرئيسية", true),
    MenuItem(2, "طبق عربي مميز", "حمص، فلافل، لحم مشوي، وخضار طازجة",
             "550 جنيه مصري", "/src/assets/arabic-food.jpg", "الأطباق العربية", false),
    MenuItem(3, "حلويات شرقية", "بقلاوة ومعمول وحلويات شرقية متنوعة",
             "300 جنيه مصري", "/src/assets/desserts.jpg", "الحلويات", true)
  ]

  /** The three categories a missing category list is seeded with. */
  const DefaultCategories: seq<Category> := [
    Category(1, "الأطباق الرئيسية", "الأطباق الرئيسية واللحوم"),
    Category(2, "الأطباق العربية", "الأطباق العربية التقليدية"),
    Category(3, "الحلويات", "الحلويات الشرقية والغربية")
  ]

  /** The defaults carry the ids 1, 2 and 3, once each. */
  lemma DefaultsHaveUniqueIds()
    ensures |DefaultMenu| == 3 && |DefaultCategories| == 3
    ensures forall i :: 0 <= i < 3 ==> DefaultMenu[i].id == i + 1 && DefaultCategories[i].id == i + 1
    ensures Lists.UniqueKeys(DefaultMenu, MenuId) && Lists.UniqueKeys(DefaultCategories, CategoryId)
  {
  }

  /** `getAll`: the stored list when there is one, the defaults otherwise. */
  function Loaded<T>(stored: Option<seq<T>>, defaults: seq<T>): (r: seq<T>)
    ensures stored.Some? ==> r == stored.value
    ensures stored.None? ==> r == defaults
  {
    stored.GetOr(defaults)
  }

  // ---------------------------------------------------------------------------
  // Lists keyed by id
  // ---------------------------------------------------------------------------

  /** Replacing the entry at the id's first position by one with the same id keeps ids unique and finds it at the same place. */
  lemma ReplaceKeepsKeys<T>(s: seq<T>, key: T -> int, k: nat, v: T)
    requires k < |s| && key(v) == key(s[k])
    requires Lists.UniqueKeys(s, key)
    ensures Lists.UniqueKeys(s[k := v], key)
    ensures Lists.IndexOfKey(s, key, key(v)) == Some(k) ==> Lists.IndexOfKey(s[k := v], key, key(v)) == Some(k)
  {
    var t := s[k := v];
    assert forall i :: 0 <= i < |s| ==> key(t[i]) == key(s[i]);
  }

  // ---------------------------------------------------------------------------
  // Menu items
  // ---------------------------------------------------------------------------

  function SameName(name: string): MenuItem -> bool
  {
    (m: MenuItem) => Strings.Lower(m.name) == Strings.Lower(name)
  }

  /** The duplicate check of `menuService.create`: some stored item has the name, ignoring case. */
  function NameTaken(items: seq<MenuItem>, name: string): (b: bool)
    ensures b <==> exists i :: 0 <= i < |items| && Strings.Lower(items[i].name) == Strings.Lower(name)
  {
    Lists.FirstIndex(items, SameName(name)).Some?
  }

  /** Names that differ only in case are taken or free together. */
  lemma NameTakenIgnoresCase(items: seq<MenuItem>, a: string, b: string)
    requires Strings.Lower(a) == Strings.Lower(b)
    ensures NameTaken(items, a) == NameTaken(items, b)
  {
  }

  /** `{ ...item, id: Date.now() }`. */
  function NewMenuItem(d: MenuDraft, id: int): (m: MenuItem)
    ensures m.id == id
    ensures m.name == d.name && m.description == d.description && m.price == d.price
    ensures m.image == d.image && m.category == d.category && m.isPopular == d.isPopular
  {
    MenuItem(id, d.name, d.description, d.price, d.image, d.category, d.isPopular)
  }

  /** Once an item is created, creating it again under the same name in any case is refused. */
  lemma CreateThenDuplicate(items: seq<MenuItem>, d: MenuDraft, id: int, again: string)
    requires Strings.Lower(again) == Strings.Lower(d.name)
    ensures NameTaken([NewMenuItem(d, id)] + items, again)
  {
    assert ([NewMenuItem(d, id)] + items)[0].name == d.name;
  }

  /** `{ ...item, ...updates }` for a menu item. */
  function MergeMenu(m: MenuItem, p: MenuPatch): (r: MenuItem)
    ensures r.id == (if p.id.Some? then p.id.value else m.id)
    ensures r.name == (if p.name.Some? then p.name.value else m.name)
    ensures r.description == (if p.description.Some? then p.description.value else m.description)
    ensures r.price == (if p.price.Some? then p.price.value else m.price)
    ensures r.image == (if p.image.Some? then p.image.value else m.image)
    ensures r.category == (if p.category.Some? then p.category.value else m.category)
    ensures r.isPopular == (if p.isPopular.Some? then p.isPopular.value else m.isPopular)
  {
    MenuItem(p.id.GetOr(m.id), p.name.GetOr(m.name), p.description.GetOr(m.description),
             p.price.GetOr(m.price), p.image.GetOr(m.image), p.category.GetOr(m.category),
             p.isPopular.GetOr(m.isPopular))
  }

  /** Two updates in a row: the second's given fields over the first's. */
  function ThenMenu(first: MenuPatch, second: MenuPatch): MenuPatch
  {
    MenuPatch(Or(second.id, first.id), Or(second.name, first.name), Or(second.description, first.description),
              Or(second.price, first.price), Or(second.image, first.image), Or(second.category, first.category),
              Or(second.isPopular, first.isPopular))
  }

  function Or<T>(a: Option<T>, b: Option<T>): Option<T>
  {
    if a.Some? then a else b
  }

  const NoMenuChanges := MenuPatch(None, None, None, None, None, None, None)

  /** The spread merge: given fields win, absent ones keep the stored value; an empty patch changes nothing, a patch applied twice acts once, and two patches compose. */
  lemma MergeMenuLaws(m: MenuItem, p: MenuPatch, q: MenuPatch)
    ensures p.name.Some? ==> MergeMenu(m, p).name == p.name.value
    ensures p.name.None? ==> MergeMenu(m, p).name == m.name
    ensures p.id.None? ==> MergeMenu(m, p).id == m.id
    ensures MergeMenu(m, NoMenuChanges) == m
    ensures MergeMenu(MergeMenu(m, p), p) == MergeMenu(m, p)
    ensures MergeMenu(MergeMenu(m, p), q) == MergeMenu(m, ThenMenu(p, q))
  {
  }

  /**
   * The local `menuService`: the `menuItems` entry.  Each operation reads the
   * entry, works on the list and writes it back, or throws and writes nothing.
   */
  class MenuStore {
    var stored: Option<seq<MenuItem>>

    constructor (stored: Option<seq<MenuItem>>)
      ensures this.stored == stored
    {
      this.stored := stored;
    }

    /** `getAll`: the stored list, or the defaults, which are then written. */
    method GetAll() returns (items: seq<MenuItem>)
      modifies this
      ensures items == Loaded(old(stored), DefaultMenu)
      ensures stored == Some(items)
      ensures old(stored).Some? ==> stored == old(stored)
    {
      if stored.Some? {
        items := stored.value;
      } else {
        items := DefaultMenu;
        stored := Some(items);
      }
    }

    /** `create`: refused for a name already present in any case; otherwise the new item goes first. */
    method Create(draft: MenuDraft, now: int) returns (r: Result<MenuItem, CatalogError>)
      modifies this
      ensures var items := old(stored).GetOr([]);
              && (NameTaken(items, draft.name) ==> r == Err(DuplicateName) && stored == old(stored))
              && (!NameTaken(items, draft.name) ==>
                    r == Ok(NewMenuItem(draft, now)) && stored == Some([r.value] + items))
    {
      var items := stored.GetOr([]);
      if NameTaken(items, draft.name) {
        return Err(DuplicateName);
      }
      var item := NewMenuItem(draft, now);
      stored := Some([item] + items);
      r := Ok(item);
    }

    /** `update`: merges the patch into the first item with the id, or throws and writes nothing. */
    method Update(id: int, patch: MenuPatch) returns (r: Result<MenuItem, CatalogError>)
      modifies this
      ensures var items := old(stored).GetOr([]);
              var k := Lists.IndexOfKey(items, MenuId, id);
              && (k.None? ==> r == Err(ItemNotFound) && stored == old(stored))
              && (k.Some? ==> r == Ok(MergeMenu(items[k.value], patch))
                                && stored == Some(items[k.value := r.value]))
    {
      var items := stored.GetOr([]);
      var k := Lists.IndexOfKey(items, MenuId, id);
      if k.None? {
        return Err(ItemNotFound);
      }
      var merged := MergeMenu(items[k.value], patch);
      stored := Some(items[k.value := merged]);
      r := Ok(merged);
    }

    /** `delete`: writes the list without the id, whether or not it was there. */
    method Delete(id: int)
      modifies this
      ensures stored == Some(Lists.RemoveKey(old(stored).GetOr([]), MenuId, id))
    {
      stored := Some(Lists.RemoveKey(stored.GetOr([]), MenuId, id));
    }
  }

  // ---------------------------------------------------------------------------
  // Categories
  // ---------------------------------------------------------------------------

  /** `{ ...category, id: Date.now() }`. */
  function NewCategory(d: CategoryDraft, id: int): (c: Category)
    ensures c.id == id && c.name == d.name && c.description == d.description
  {
    Category(id, d.name, d.description)
  }

  /** `{ ...category, ...updates }` for a category. */
  function MergeCategory(c: Category, p: CategoryPatch): (r: Category)
    ensures r.id == (if p.id.Some? then p.id.value else c.id)
    ensures r.name == (if p.name.Some? then p.name.value else c.name)
    ensures r.description == (if p.description.Some? then p.description.value else c.description)
  {
    Category(p.id.GetOr(c.id), p.name.GetOr(c.name), p.description.GetOr(c.description))
  }

  const NoCategoryChanges := CategoryPatch(None, None, None)

  /** The spread merge on categories: given fields win, an empty patch changes nothing, a patch applied twice acts once. */
  lemma MergeCategoryLaws(c: Category, p: CategoryPatch)
    ensures p.name.Some? ==> MergeCategory(c, p).name == p.name.value
    ensures p.name.None? ==> MergeCategory(c, p).name == c.name
    ensures p.id.None? ==> MergeCategory(c, p).id == c.id
    ensures MergeCategory(c, NoCategoryChanges) == c
    ensures MergeCategory(MergeCategory(c, p), p) == MergeCategory(c, p)
  {
  }

  /** The local `categoryService`: the `categories` entry. */
  class CategoryStore {
    var stored: Option<seq<Category>>

    constructor (stored: Option<seq<Category>>)
      ensures this.stored == stored
    {
      this.stored := stored;
    }

    /** `getAll`: the stored list, or the defaults, which are then written. */
    method GetAll() returns (categories: seq<Category>)
      modifies this
      ensures categories == Loaded(old(stored), DefaultCategories)
      ensures stored == Some(categories)
      ensures old(stored).Some? ==> stored == old(stored)
    {
      if stored.Some? {
        categories := stored.value;
      } else {
        categories := DefaultCategories;
        stored := Some(categories);
      }
    }

    /** `create`: no duplicate check; the new category goes first. */
    method Create(draft: CategoryDraft, now: int) returns (c: Category)
      modifies this
      ensures c == NewCategory(draft, now)
      ensures stored == Some([c] + old(stored).GetOr([]))
    {
      c := NewCategory(draft, now);
      stored := Some([c] + stored.GetOr([]));
    }

    /** `update`: merges the patch into the first category with the id, or throws and writes nothing. */
    method Update(id: int, patch: CategoryPatch) returns (r: Result<Category, CatalogError>)
      modifies this
      ensures var categories := old(stored).GetOr([]);
              var k := Lists.IndexOfKey(categories, CategoryId, id);
              && (k.None? ==> r == Err(CategoryNotFound) && stored == old(stored))
              && (k.Some? ==> r == Ok(MergeCategory(categories[k.value], patch))
                                && stored == Some(categories[k.value := r.value]))
    {
      var categories := stored.GetOr([]);
      var k := Lists.IndexOfKey(categories, CategoryId, id);
      if k.None? {
        return Err(CategoryNotFound);
      }
      var merged := MergeCategory(categories[k.value], patch);
      stored := Some(categories[k.value := merged]);
      r := Ok(merged);
    }

    /** `delete`: writes the list without the id, whether or not it was there. */
    method Delete(id: int)
      modifies this
      ensures stored == Some(Lists.RemoveKey(old(stored).GetOr([]), CategoryId, id))
    {
      stored := Some(Lists.RemoveKey(stored.GetOr([]), CategoryId, id));
    }
  }

  // ---------------------------------------------------------------------------
  // Admin actions
  // ---------------------------------------------------------------------------

  /** `{ ...action, id: Date.now(), created_at: now }`. */
  function Logged(a: ActionDraft, id: int, now: string): (e: AdminAction)
    ensures e.id == id && e.createdAt == now
    ensures e.actionType == a.actionType && e.actionDescription == a.actionDescription
    ensures e.adminUser == a.adminUser && e.targetItem == a.targetItem
  {
    AdminAction(id, a.actionType, a.actionDescription, a.adminUser, a.targetItem, now)
  }

  /** The local `adminActionService`: the `adminActions` entry, newest first. */
  class AdminLog {
    var stored: Option<seq<AdminAction>>

    constructor (stored: Option<seq<AdminAction>>)
      ensures this.stored == stored
    {
      this.stored := stored;
    }

    /** `logAction`: the stamped action goes first. */
    method LogAction(action: ActionDraft, id: int, now: string) returns (entry: AdminAction)
      modifies this
      ensures entry == Logged(action, id, now)
      ensures stored == Some([entry] + old(stored).GetOr([]))
    {
      entry := Logged(action, id, now);
      stored := Some([entry] + stored.GetOr([]));
    }

    /** `getActions`: the stored list, or an empty one; nothing is written. */
    method GetActions() returns (actions: seq<AdminAction>)
      ensures stored.Some? ==> actions == stored.value
      ensures stored.None? ==> actions == []
    {
      actions := stored.GetOr([]);
    }
  }
}
