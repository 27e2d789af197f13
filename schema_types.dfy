// Row types of the six TPC-H tables, one per struct of assets/schema_types.h.
// The C++ `int` fields are kept as unbounded integers: every value that
// reaches them comes from a conversion that already checks the 32-bit range.
module SchemaTypes {

  /** A region (region.tbl): its key and its name (`label` in C++, a keyword in Dafny). */
  datatype GeoZone = GeoZone(key: int, zoneLabel: string)

  /** A nation (nation.tbl): its id, its name and the key of its region. */
  datatype NationInfo = NationInfo(id: int, name: string, regionId: int)

  /** A client (customer.tbl): its id and the id of its nation. */
  datatype ClientInfo = ClientInfo(id: int, nationality: int)

  /** An order (orders.tbl); the date stays the raw text of the file. */
  datatype PurchaseOrder = PurchaseOrder(id: int, clientId: int, orderDate: string)

  /** A line item (lineitem.tbl): price and discount rate as exact reals. */
  datatype ItemDetail = ItemDetail(orderId: int, vendorId: int, price: real, markdown: real)

  /** A vendor (supplier.tbl); the account balance is loaded but never used by the query. */
  datatype VendorData = VendorData(id: int, nation: int, balance: real)
}
