/**
 * The open-dropdown state shared by the top navigation and the navbar:
 * `setOpenDropdown(openDropdown === menuName ? null : menuName)`.
 * Holding a single nullable name, at most one dropdown is ever open.
 */
module Dropdown {
  import opened Js

  /** Clicking menu `name`: closes it when it is the open one, otherwise opens it (closing any other). */
  function Toggle(open: Option<string>, name: string): (r: Option<string>)
    ensures r == None <==> open == Some(name)
    ensures r != None ==> r == Some(name)
  {
    if open == Some(name) then None else Some(name)
  }

  /** Clicking the same menu twice restores the state exactly when that menu
    * was open or none was. */
  lemma ToggleTwice(open: Option<string>, name: string)
    ensures Toggle(Toggle(open, name), name) == open <==> open == None || open == Some(name)
  {
  }

  /** After a click, the clicked menu is open or all menus are closed. */
  lemma ToggleOpensOnlyClicked(open: Option<string>, name: string, other: string)
    requires other != name
    ensures Toggle(open, name) != Some(other)
  {
  }
}
