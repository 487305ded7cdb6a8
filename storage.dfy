/** The device storage item under the key "estoque", shared by the stock screen (which
    writes it) and the home screen (which reads it). Serialisation is abstracted: a payload
    either decodes to a list of ingredients or cannot be used. */
module Storage {
  import opened Inventory

  /** The stored item as the screens see it after `JSON.parse`: nothing stored (or an empty
      string, which is falsy), a decoded list, or a payload whose parse throws. */
  datatype Slot = Absent | Saved(items: seq<Ingredient>) | Unparsable

  /** The storage cell itself; writes replace the whole item. */
  class Store {
    var item: Slot

    constructor(initial: Slot)
      ensures item == initial
    {
      item := initial;
    }
  }
}
