/**
 * components/paginator.py: a view that pages through a list of embeds with
 * four buttons. The view's children are the four buttons in declaration
 * order; the model keeps their `disabled` flags in an array.
 */
module Paginators {

  import opened Wrappers

  /** The four navigation buttons, in the order the view lists them. */
  datatype Button = First | Previous | Next | Last

  /** Position of a button among the view's children. */
  function Index(b: Button): (i: nat)
    ensures i < 4
  {
    match b
    case First => 0
    case Previous => 1
    case Next => 2
    case Last => 3
  }

  /** Whether `update_buttons` leaves button `b` disabled on `page` of `pages`. */
  predicate DisabledAt(b: Button, page: int, pages: int) {
    match b
    case First => page == 1
    case Previous => page == 1
    case Next => page == pages
    case Last => page == pages
  }

  /** The page a handler moves to from `page`. */
  function Press(b: Button, page: int, pages: int): int {
    match b
    case First => 1
    case Previous => page - 1
    case Next => page + 1
    case Last => pages
  }

  /** Python's `s[i]`: a negative index counts from the end; out of range raises IndexError (None). */
  function PythonIndex<E>(s: seq<E>, i: int): Option<E> {
    if 0 <= i < |s| then Some(s[i])
    else if -|s| <= i < 0 then Some(s[|s| + i])
    else None
  }

  /** The embed `edit_page` shows for a page number. */
  function PageAt<E>(embeds: seq<E>, page: int): Option<E> {
    PythonIndex(embeds, page - 1)
  }

  /** An enabled button never leads out of `1..pages`. */
  lemma EnabledPressStaysInBounds(b: Button, page: int, pages: int)
    requires 1 <= page <= pages && !DisabledAt(b, page, pages)
    ensures 1 <= Press(b, page, pages) <= pages
  {
  }

  /** The page reached by pressing `presses` in order from `page`. */
  function Run(page: int, pages: int, presses: seq<Button>): int
    decreases |presses|
  {
    if presses == [] then page else Run(Press(presses[0], page, pages), pages, presses[1..])
  }

  /** Each press in `presses` hits a button that is enabled at that moment. */
  predicate EnabledRun(page: int, pages: int, presses: seq<Button>)
    decreases |presses|
  {
    presses == [] ||
    (!DisabledAt(presses[0], page, pages) && EnabledRun(Press(presses[0], page, pages), pages, presses[1..]))
  }

  /** Pressing only enabled buttons keeps the page within `1..pages`, so the shown embed exists. */
  lemma {:induction false} EnabledRunStaysInBounds<E>(embeds: seq<E>, page: int, presses: seq<Button>)
    requires 1 <= page <= |embeds|
    requires EnabledRun(page, |embeds|, presses)
    ensures 1 <= Run(page, |embeds|, presses) <= |embeds|
    ensures PageAt(embeds, Run(page, |embeds|, presses)) == Some(embeds[Run(page, |embeds|, presses) - 1])
    decreases |presses|
  {
    if presses != [] {
      EnabledPressStaysInBounds(presses[0], page, |embeds|);
      EnabledRunStaysInBounds(embeds, Press(presses[0], page, |embeds|), presses[1..]);
    }
  }

  /** With a single page every navigation button is disabled. */
  lemma SinglePageDisablesAll(b: Button)
    ensures DisabledAt(b, 1, 1)
  {
  }

  class Paginator<U(==), E> {
    const author: Option<U>
    const embeds: seq<E>
    var currentPage: int
    /** `disabled` flag of each child button, indexed by `Index`. */
    const children: array<bool>

    /** The children's flags agree with what `update_buttons` derives from the current page. */
    ghost predicate Valid()
      reads this, children
    {
      children.Length == 4 &&
      forall b :: children[Index(b)] == DisabledAt(b, currentPage, |embeds|)
    }

    /** The current page names an existing embed. */
    ghost predicate InBounds()
      reads this
    {
      1 <= currentPage <= |embeds|
    }

    constructor (author: Option<U>, embeds: seq<E>)
      ensures Valid() && fresh(children)
      ensures this.author == author && this.embeds == embeds
      ensures currentPage == 1
      ensures children[Index(First)] && children[Index(Previous)]
      ensures |embeds| == 1 ==> forall b :: children[Index(b)]
    {
      this.author := author;
      this.embeds := embeds;
      currentPage := 1;
      children := new bool[4];
      new;
      UpdateButtons();
    }

    /** `update_buttons`: disable every child, then set the four flags from the current page. */
    method UpdateButtons()
      requires children.Length == 4
      modifies children
      ensures Valid()
    {
      for i := 0 to children.Length
        invariant forall j | 0 <= j < i :: children[j]
      {
        children[i] := true;
      }
      children[Index(First)] := currentPage == 1;
      children[Index(Previous)] := currentPage == 1;
      children[Index(Last)] := currentPage == |embeds|;
      children[Index(Next)] := currentPage == |embeds|;
    }

    /** `edit_page`: refresh the buttons and fetch the embed for the current page (None: IndexError). */
    method EditPage() returns (shown: Option<E>)
      requires children.Length == 4
      modifies children
      ensures Valid()
      ensures shown == PageAt(embeds, currentPage)
    {
      UpdateButtons();
      shown := PageAt(embeds, currentPage);
    }

    /** `firs_page`: go to page 1. */
    method FirstPage() returns (shown: Option<E>)
      requires Valid()
      modifies this, children
      ensures Valid()
      ensures currentPage == 1
      ensures shown == PageAt(embeds, currentPage)
      ensures |embeds| > 0 ==> InBounds() && shown == Some(embeds[0])
    {
      currentPage := 1;
      shown := EditPage();
    }

    /** `prev_page`: go back one page. */
    method PrevPage() returns (shown: Option<E>)
      requires Valid()
      modifies this, children
      ensures Valid()
      ensures currentPage == old(currentPage) - 1
      ensures shown == PageAt(embeds, currentPage)
      ensures old(InBounds()) && !old(children[Index(Previous)]) ==>
                InBounds() && shown == Some(embeds[currentPage - 1])
    {
      currentPage := currentPage - 1;
      shown := EditPage();
    }

    /** `next_page`: go forward one page. */
    method NextPage() returns (shown: Option<E>)
      requires Valid()
      modifies this, children
      ensures Valid()
      ensures currentPage == old(currentPage) + 1
      ensures shown == PageAt(embeds, currentPage)
      ensures old(InBounds()) && !old(children[Index(Next)]) ==>
                InBounds() && shown == Some(embeds[currentPage - 1])
    {
      currentPage := currentPage + 1;
      shown := EditPage();
    }

    /** `last_page`: go to the last page. */
    method LastPage() returns (shown: Option<E>)
      requires Valid()
      modifies this, children
      ensures Valid()
      ensures currentPage == |embeds|
      ensures shown == PageAt(embeds, currentPage)
      ensures |embeds| > 0 ==> InBounds() && shown == Some(embeds[|embeds| - 1])
    {
      currentPage := |embeds|;
      shown := EditPage();
    }

    /** `interaction_check`: anyone may use an unowned paginator, otherwise only its author. */
    method InteractionCheck(user: U) returns (admitted: bool)
      ensures admitted <==> author == None || author == Some(user)
    {
      admitted := !(author.Some? && user != author.value);
    }
  }
}
