/** Menu items as the menu service returns them; the cart, the menu page
    and the staff order page all take items of this shape. */
module Catalog {
  import opened Common

  /** A menu item. `price` is an exact amount in the smallest currency
      unit; `description` is None when the service sends none. */
  datatype MenuItem = MenuItem(id: int, name: string, price: int, description: Option<string>)
}
