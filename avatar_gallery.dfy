/** The avatar gallery (src/components/AvatarGallery.tsx): the category filter, card selection and
    the gallery's open/closed and tab state. */
module AvatarGallery {
  import opened Types
  import AvatarLibrary

  /** The four tabs. */
  datatype Tab = AllTab | MaleTab | FemaleTab | CharacterTab

  function TabCategory(tab: Tab): AvatarCategory
    requires tab != AllTab
  {
    match tab
    case MaleTab => Male
    case FemaleTab => Female
    case CharacterTab => Character
  }

  /** `avatars.filter(avatar => avatar.category === category)`. */
  function Filter(avatars: seq<Avatar>, category: AvatarCategory): (r: seq<Avatar>)
    ensures |r| <= |avatars|
    ensures forall i :: 0 <= i < |r| ==> r[i].category == category && r[i] in avatars
    ensures forall a :: a in avatars && a.category == category ==> a in r
  {
    if avatars == [] then []
    else
      var rest := Filter(avatars[1..], category);
      assert forall a :: a in avatars[1..] ==> a in avatars;
      assert forall a :: a in avatars ==> a == avatars[0] || a in avatars[1..];
      if avatars[0].category == category then [avatars[0]] + rest else rest
  }

  /** The filter distributes over concatenation: it keeps the order of what it keeps. */
  lemma {:induction false} FilterAppend(a: seq<Avatar>, b: seq<Avatar>, category: AvatarCategory)
    ensures Filter(a + b, category) == Filter(a, category) + Filter(b, category)
  {
    if a == [] {
      assert a + b == b;
    } else {
      assert (a + b)[1..] == a[1..] + b;
      FilterAppend(a[1..], b, category);
    }
  }

  /** On one avatar the filter keeps it exactly when its category matches. */
  lemma FilterSingle(x: Avatar, category: AvatarCategory)
    ensures Filter([x], category) == if x.category == category then [x] else []
  {
    assert [x][1..] == [];
  }

  /** A filter that keeps everything returns its input unchanged. */
  lemma {:induction false} FilterKeepsAll(avatars: seq<Avatar>, category: AvatarCategory)
    requires forall i :: 0 <= i < |avatars| ==> avatars[i].category == category
    ensures Filter(avatars, category) == avatars
  {
    if avatars != [] {
      FilterKeepsAll(avatars[1..], category);
    }
  }

  /** A filter that matches nothing returns nothing. */
  lemma FilterKeepsNone(avatars: seq<Avatar>, category: AvatarCategory)
    requires forall i :: 0 <= i < |avatars| ==> avatars[i].category != category
    ensures Filter(avatars, category) == []
  {
  }

  /** `filteredAvatars`. */
  function FilteredAvatars(tab: Tab): seq<Avatar>
  {
    if tab == AllTab then AvatarLibrary.Avatars else Filter(AvatarLibrary.Avatars, TabCategory(tab))
  }

  /** With the library as shipped (six male avatars), the male tab shows the whole library in
      order. */
  lemma MaleTabShowsLibrary()
    ensures FilteredAvatars(MaleTab) == AvatarLibrary.Avatars
  {
    AvatarLibrary.AllMale();
    FilterKeepsAll(AvatarLibrary.Avatars, Male);
  }

  /** With the library as shipped, the female and character tabs show nothing. */
  lemma OtherTabsEmpty()
    ensures FilteredAvatars(FemaleTab) == [] && FilteredAvatars(CharacterTab) == []
  {
    AvatarLibrary.AllMale();
    FilterKeepsNone(AvatarLibrary.Avatars, Female);
    FilterKeepsNone(AvatarLibrary.Avatars, Character);
  }

  /** `currentAvatarUrl === avatar.url`: the card's class and its badge. */
  predicate CardSelected(currentUrl: string, avatar: Avatar)
  {
    currentUrl == avatar.url
  }

  /** With the url of a library avatar as the current model, exactly that avatar's card is
      selected. */
  lemma OneCardSelected(k: nat)
    requires k < |AvatarLibrary.Avatars|
    ensures forall i :: 0 <= i < |AvatarLibrary.Avatars| ==>
      (CardSelected(AvatarLibrary.Avatars[k].url, AvatarLibrary.Avatars[i]) <==> i == k)
  {
    AvatarLibrary.AvatarUrlsDistinct();
  }

  /** The gallery's state: open or closed, the active tab, and whether the guide is shown. */
  class Gallery {
    var isOpen: bool
    var selectedCategory: Tab
    var showGuide: bool

    constructor()
      ensures !isOpen && selectedCategory == AllTab && !showGuide
    {
      isOpen := false;
      selectedCategory := AllTab;
      showGuide := false;
    }

    /** `handleSelectAvatar`: report exactly the avatar's url and close the gallery. */
    method HandleSelectAvatar(avatar: Avatar) returns (url: string)
      modifies this
      ensures url == avatar.url && !isOpen
      ensures selectedCategory == old(selectedCategory) && showGuide == old(showGuide)
    {
      url := avatar.url;
      isOpen := false;
    }

    method Open()
      modifies this
      ensures isOpen && selectedCategory == old(selectedCategory) && showGuide == old(showGuide)
    {
      isOpen := true;
    }

    method Close()
      modifies this
      ensures !isOpen && selectedCategory == old(selectedCategory) && showGuide == old(showGuide)
    {
      isOpen := false;
    }

    /** A tab button. */
    method SelectCategory(tab: Tab)
      modifies this
      ensures selectedCategory == tab && isOpen == old(isOpen) && showGuide == old(showGuide)
    {
      selectedCategory := tab;
    }

    method ToggleGuide()
      modifies this
      ensures showGuide == !old(showGuide) && isOpen == old(isOpen) && selectedCategory == old(selectedCategory)
    {
      showGuide := !showGuide;
    }
  }
}
