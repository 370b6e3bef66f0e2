/** The canonical in-memory housefile and the grants that refer to its zones. */
module House {
  import opened Outcomes

  datatype Access = Open | Restricted | NoGo

  datatype Scope = ReadLayout | ReadSystems | ReadInventory | CmdNavigate | CmdManipulate

  datatype Boundary = Boundary(x: int, y: int, w: int, h: int)

  datatype Zone = Zone(id: string, name: string, access: Access, boundary: Boundary, note: string, outdoor: bool)

  datatype SystemItem = SystemItem(id: string, name: string, zone: string, tag: string, detail: string)

  datatype Flag = Fragile | DoNotTouch | OtherFlag(text: string)

  datatype InventoryItem = InventoryItem(id: string, name: string, zone: string, flags: seq<Flag>, note: string)

  datatype Quirk = Quirk(id: string, zone: string, text: string)

  datatype Policies = Policies(quietStart: string, quietEnd: string, timezone: string, teleop: string, residency: string)

  datatype Housefile = Housefile(
    dwellingName: string,
    zones: seq<Zone>,
    systems: seq<SystemItem>,
    inventory: seq<InventoryItem>,
    quirks: seq<Quirk>,
    policies: Policies,
    schema: string,
    rev: string)

  function FirstZone(zones: seq<Zone>, id: string): (z: Option<Zone>)
    ensures z.Some? ==> exists i :: 0 <= i < |zones| && zones[i] == z.value && z.value.id == id &&
                                    forall k :: 0 <= k < i ==> zones[k].id != id
    ensures z.None? ==> forall x :: x in zones ==> x.id != id
  {
    if zones == [] then None
    else if zones[0].id == id then Some(zones[0])
    else FirstZone(zones[1..], id)
  }
}
