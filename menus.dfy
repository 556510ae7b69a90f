/**
 * The toolkit-independent menu containers: items, menus holding items in
 * the order added, and a menu bar holding menus in the order added. The
 * native counterpart a backend attaches is an opaque handle; a handler is
 * represented by its name.
 */
module Menus {
  import opened Wrappers

  /** A backend's native menu object. */
  type NativeHandle = nat

  /** `PEWMenuItemBase`. */
  class MenuItem {
    const title: string
    const handler: string
    const shortcut: Option<string>
    var nativeObject: Option<NativeHandle>

    constructor (title: string, handler: string, shortcut: Option<string>)
      ensures this.title == title && this.handler == handler && this.shortcut == shortcut
      ensures nativeObject == None
    {
      this.title := title;
      this.handler := handler;
      this.shortcut := shortcut;
      nativeObject := None;
    }
  }

  /** `PEWMenuBase`. */
  class Menu {
    const title: string
    var items: seq<MenuItem>
    var nativeObject: Option<NativeHandle>

    constructor (title: string)
      ensures this.title == title && items == [] && nativeObject == None
    {
      this.title := title;
      items := [];
      nativeObject := None;
    }

    /** `add_item(item)`: the item goes last; the items before it stay as they were. */
    method AddItem(item: MenuItem)
      modifies this
      ensures items == old(items) + [item]
      ensures |items| == |old(items)| + 1 && items[..|old(items)|] == old(items) && items[|items| - 1] == item
      ensures nativeObject == old(nativeObject)
    {
      items := items + [item];
    }
  }

  /** `PEWMenuBarBase`. */
  class MenuBar {
    var menus: seq<Menu>
    var nativeObject: Option<NativeHandle>

    constructor ()
      ensures menus == [] && nativeObject == None
    {
      menus := [];
      nativeObject := None;
    }

    /** `add_menu(menu)`: the menu goes last; the menus before it stay as they were. */
    method AddMenu(menu: Menu)
      modifies this
      ensures menus == old(menus) + [menu]
      ensures |menus| == |old(menus)| + 1 && menus[..|old(menus)|] == old(menus) && menus[|menus| - 1] == menu
      ensures nativeObject == old(nativeObject)
    {
      menus := menus + [menu];
    }
  }
}
