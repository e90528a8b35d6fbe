/**
 * The catalog's request records and their field validators
 * (src/items/model.go). Go's `int` fields are modelled as unbounded
 * integers; the validators only compare them with zero.
 */
module ItemsModel {
  import opened Errors
  import opened Text

  /** A catalog row as the list and detail queries return it. */
  datatype ItemGet = ItemGet(
    id: int, userId: int, categoryId: int, brandId: int, createdAt: int,
    price: int, discountedPrice: int, description: string, modifiedAt: int, deletedAt: int)

  /** The body of a request that creates an item. */
  datatype ItemPost = ItemPost(
    id: int, userId: int, categoryId: int, brandId: int, createdAt: int,
    price: int, discountedPrice: int, description: string)

  /** The body of a request that changes an item; zero or false means "leave as is". */
  datatype ItemPatch = ItemPatch(
    id: int, categoryId: int, brandId: int, price: int, discount: bool,
    discountedPrice: int, description: string, modifiedAt: int,
    changeDeleted: bool, deletedAt: int)

  /** The list filter decoded from the query string: each key may repeat. */
  datatype Filter = Filter(brand: seq<string>, prices: seq<string>)

  const UserIdEmpty := "UserId field can't be empty."
  const CategoryIdEmpty := "CategoryId field can't be empty."
  const BrandIdEmpty := "BrandId field can't be empty."
  const CreatedAtEmpty := "CreatedAt field can't be empty."
  const PriceEmpty := "Price field can't be empty."
  const DescriptionEmpty := "Description field can't be empty."
  const WrongUrlPath := "Wrong URL Path."
  const ModifiedAtEmpty := "ModifiedAt field can't be empty."
  const NothingToUpdate := "Include fields to be updated."

  /** `NewItemPost`: the owner and the creation time (the clock is passed in); nothing else. */
  function NewItemPost(userId: int, now: int): (item: ItemPost)
    ensures item.userId == userId && item.createdAt == now
    ensures item.id == 0 && item.categoryId == 0 && item.brandId == 0
    ensures item.price == 0 && item.discountedPrice == 0 && item.description == ""
  {
    ItemPost(0, userId, 0, 0, now, 0, 0, "")
  }

  /**
   * `ItemPost.checkFields`: nil exactly when every required field is set;
   * otherwise the message of the first check that fails, in the order
   * UserId, CategoryId, BrandId, CreatedAt, Price, Description. Only zero
   * is refused for the numbers, and a description of white space only is
   * refused as empty.
   */
  function CheckItemPost(item: ItemPost): (r: Error)
    ensures r == Nil <==>
      item.userId != 0 && item.categoryId != 0 && item.brandId != 0 &&
      item.createdAt != 0 && item.price != 0 && !IsBlank(item.description)
    ensures r == Fail(UserIdEmpty) <==> item.userId == 0
    ensures r == Fail(CategoryIdEmpty) <==> item.userId != 0 && item.categoryId == 0
    ensures r == Fail(BrandIdEmpty) <==>
      item.userId != 0 && item.categoryId != 0 && item.brandId == 0
    ensures r == Fail(CreatedAtEmpty) <==>
      item.userId != 0 && item.categoryId != 0 && item.brandId != 0 && item.createdAt == 0
    ensures r == Fail(PriceEmpty) <==>
      item.userId != 0 && item.categoryId != 0 && item.brandId != 0 &&
      item.createdAt != 0 && item.price == 0
    ensures r == Fail(DescriptionEmpty) <==>
      item.userId != 0 && item.categoryId != 0 && item.brandId != 0 &&
      item.createdAt != 0 && item.price != 0 && IsBlank(item.description)
  {
    if item.userId == 0 then Fail(UserIdEmpty)
    else if item.categoryId == 0 then Fail(CategoryIdEmpty)
    else if item.brandId == 0 then Fail(BrandIdEmpty)
    else if item.createdAt == 0 then Fail(CreatedAtEmpty)
    else if item.price == 0 then Fail(PriceEmpty)
    else if TrimSpace(item.description) == "" then Fail(DescriptionEmpty)
    else Nil
  }

  /**
   * A freshly made ItemPost is refused until the body fills it in: with an
   * owner and a running clock, the first complaint is the category.
   */
  lemma FreshItemPostLacksCategory(userId: int, now: int)
    requires userId != 0 && now != 0
    ensures CheckItemPost(NewItemPost(userId, now)) == Fail(CategoryIdEmpty)
  {
  }

  /** `NewItemPatch`: the item's id and the modification time; nothing else. */
  function NewItemPatch(itemId: int, now: int): (item: ItemPatch)
    ensures item.id == itemId && item.modifiedAt == now
    ensures item.categoryId == 0 && item.brandId == 0 && item.price == 0 && !item.discount
    ensures item.discountedPrice == 0 && item.description == ""
    ensures !item.changeDeleted && item.deletedAt == 0
  {
    ItemPatch(itemId, 0, 0, 0, false, 0, "", now, false, 0)
  }

  /**
   * The fields whose presence `ItemPatch.checkFields` accepts as something
   * to update. `changeDeleted` is not among them, and a description of
   * white space only does not count.
   */
  predicate NamesAnUpdate(item: ItemPatch) {
    item.categoryId != 0 || item.brandId != 0 || item.price != 0 || item.deletedAt != 0 ||
    !IsBlank(item.description) || item.discountedPrice != 0 || item.discount
  }

  /**
   * `ItemPatch.checkFields`: a zero id is reported first, whatever else the
   * patch holds; then a zero modification time; then a patch that names
   * nothing to update; otherwise nil.
   */
  function CheckItemPatch(item: ItemPatch): (r: Error)
    ensures item.id == 0 ==> r == Fail(WrongUrlPath)
    ensures r == Nil <==> item.id != 0 && item.modifiedAt != 0 && NamesAnUpdate(item)
    ensures r == Fail(ModifiedAtEmpty) <==> item.id != 0 && item.modifiedAt == 0
    ensures r == Fail(NothingToUpdate) <==>
      item.id != 0 && item.modifiedAt != 0 && !NamesAnUpdate(item)
  {
    if item.id == 0 then Fail(WrongUrlPath)
    else if item.modifiedAt == 0 then Fail(ModifiedAtEmpty)
    else if item.categoryId == 0 && item.brandId == 0 && item.price == 0 && item.deletedAt == 0 &&
            TrimSpace(item.description) == "" && item.discountedPrice == 0 && item.discount == false
    then Fail(NothingToUpdate)
    else Nil
  }

  /**
   * A fresh patch always gets past the modification-time check when the
   * clock is not zero; with nothing decoded into it, it names nothing to
   * update.
   */
  lemma FreshItemPatchNamesNothing(itemId: int, now: int)
    requires itemId != 0 && now != 0
    ensures CheckItemPatch(NewItemPatch(itemId, now)) == Fail(NothingToUpdate)
  {
  }
}
