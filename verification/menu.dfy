/** Menu items as the menu page declares them: the static record every cart
    line wraps. */
module Menu {

  /** An optional field of a menu record (`spicy?`, `vegetarian?`, `image?`). */
  datatype Option<+T> = None | Some(value: T)

  /** One orderable dish or drink. `price` is the display string ("KSh 1,200");
      `priceValue` is the whole number of shillings the cart computes with. */
  datatype MenuItem = MenuItem(
    id: string,
    name: string,
    description: string,
    price: string,
    category: string,
    spicy: Option<bool>,
    vegetarian: Option<bool>,
    image: Option<string>,
    priceValue: nat
  )
}
