/** The `courts` table row (backend/models/court.go). */
module CourtModel {
  import opened Columns

  /** A court: its name is unique and non-null, its price a `decimal(10,2)` (in hundredths). */
  datatype Court = Court(name: string, description: string, capacity: int, pricePerSlot: int, isActive: bool)

  const DefaultCapacity: int := 1

  /** The zero value of the struct: what a lookup whose error is ignored leaves behind. */
  const ZeroCourt := Court("", "", 0, 0, false)

  /**
   * The row an insert stores: GORM leaves a zero-valued field with a
   * `default` tag to the column default, so capacity 0 becomes 1 and
   * `is_active` false becomes true.
   */
  function WithDefaults(c: Court): (r: Court)
    ensures r.capacity != 0 && r.isActive
    ensures c.capacity != 0 ==> r.capacity == c.capacity
    ensures r.name == c.name && r.description == c.description && r.pricePerSlot == c.pricePerSlot
  {
    c.(capacity := if c.capacity == 0 then DefaultCapacity else c.capacity, isActive := true)
  }
}
