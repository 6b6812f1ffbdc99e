/** Rentable equipment with quantity tracking (backend/models/Equipment.js). */
module EquipmentModel {

  datatype Category = Racket | Shoes | Ball | ProtectiveGear | Other

  datatype Equipment = Equipment(
    name: string,
    category: Category,
    pricePerHour: real,
    totalQuantity: int,
    availableQuantity: int,
    isActive: bool,
    description: string)

  /** The schema's validators: a name, and price and both quantities at
      least 0. The category enum is the type `Category`. */
  predicate SchemaValid(e: Equipment) {
    e.name != "" && e.pricePerHour >= 0.0 && e.totalQuantity >= 0 && e.availableQuantity >= 0
  }

  /** The `pre('save')` hook: the available quantity is clamped to the total. */
  function PreSave(e: Equipment): (r: Equipment)
    ensures r.availableQuantity <= r.totalQuantity
    ensures e.availableQuantity <= e.totalQuantity ==> r == e
    ensures r == e.(availableQuantity := r.availableQuantity)
  {
    if e.availableQuantity > e.totalQuantity then e.(availableQuantity := e.totalQuantity) else e
  }

  /** Running the hook twice is running it once. */
  lemma PreSaveIdempotent(e: Equipment)
    ensures PreSave(PreSave(e)) == PreSave(e)
  {
  }

  /** A document that passed validation is still valid after the hook, with
      its available quantity the smaller of the two quantities. */
  lemma PreSaveKeepsSchema(e: Equipment)
    requires SchemaValid(e)
    ensures SchemaValid(PreSave(e))
    ensures PreSave(e).availableQuantity == if e.availableQuantity < e.totalQuantity then e.availableQuantity else e.totalQuantity
  {
  }

  /** An equipment document being saved; the `pre('save')` hook assigns its
      `availableQuantity` in place. */
  class EquipmentDocument {
    var name: string
    var category: Category
    var pricePerHour: real
    var totalQuantity: int
    var availableQuantity: int
    var isActive: bool
    var description: string

    constructor (e: Equipment)
      ensures Value() == e
    {
      name, category, pricePerHour := e.name, e.category, e.pricePerHour;
      totalQuantity, availableQuantity := e.totalQuantity, e.availableQuantity;
      isActive, description := e.isActive, e.description;
    }

    /** The document's fields as a record. */
    function Value(): Equipment
      reads this
    {
      Equipment(name, category, pricePerHour, totalQuantity, availableQuantity, isActive, description)
    }

    /** The hook: clamp the available quantity to the total. */
    method PreSaveHook()
      modifies this`availableQuantity
      ensures Value() == PreSave(old(Value()))
    {
      if availableQuantity > totalQuantity {
        availableQuantity := totalQuantity;
      }
    }
  }
}
