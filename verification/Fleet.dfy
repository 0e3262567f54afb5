/** internal/fleet: the cabinet inventory. */
module Fleet {

  datatype Cabinet = Cabinet(id: string, partition: string, filter: string)

  datatype Inventory = Inventory(dot: string, cabinets: seq<Cabinet>)

  /** What Load makes sure of before an inventory reaches a tool. */
  predicate Loaded(inv: Inventory)
  {
    && (forall c <- inv.cabinets :: c.id != "" && c.partition != "")
    && forall i, j :: 0 <= i < j < |inv.cabinets| ==> inv.cabinets[i].id != inv.cabinets[j].id
  }
}
