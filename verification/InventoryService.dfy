/** The inventory service over its table, updated in place. */
module InventoryService {
  import opened Common
  import opened Inventory

  class InventoryStore {
    var table: Table

    constructor ()
      ensures table == map[]
    {
      table := map[];
    }

    method ReserveInventory(items: seq<Item>) returns (committed: bool)
      modifies this
      ensures committed == RunAll(Reserve, old(table), items).Some?
      ensures table == if committed then RunAll(Reserve, old(table), items).value else old(table)
    {
      var before := table;
      for i := 0 to |items|
        invariant RunAll(Reserve, before, items) == RunAll(Reserve, table, items[i..])
      {
        var item := items[i];
        assert items[i..][1..] == items[i + 1..];
        if item.product !in table || table[item.product].stock - table[item.product].reserved < item.quantity {
          table := before;
          return false;
        }
        var row := table[item.product];
        table := table[item.product := Row(row.stock, row.reserved + item.quantity)];
      }
      committed := true;
    }

    method ConfirmInventory(items: seq<Item>) returns (committed: bool)
      modifies this
      ensures committed == RunAll(Confirm, old(table), items).Some?
      ensures table == if committed then RunAll(Confirm, old(table), items).value else old(table)
    {
      var before := table;
      for i := 0 to |items|
        invariant RunAll(Confirm, before, items) == RunAll(Confirm, table, items[i..])
      {
        var item := items[i];
        assert items[i..][1..] == items[i + 1..];
        if item.product !in table || table[item.product].reserved < item.quantity {
          table := before;
          return false;
        }
        var row := table[item.product];
        table := table[item.product := Row(row.stock - item.quantity, row.reserved - item.quantity)];
      }
      committed := true;
    }

    method ReleaseInventory(items: seq<Item>) returns (committed: bool)
      modifies this
      ensures committed == RunAll(Release, old(table), items).Some?
      ensures table == if committed then RunAll(Release, old(table), items).value else old(table)
    {
      var before := table;
      for i := 0 to |items|
        invariant RunAll(Release, before, items) == RunAll(Release, table, items[i..])
      {
        var item := items[i];
        assert items[i..][1..] == items[i + 1..];
        if item.product !in table || table[item.product].reserved < item.quantity {
          table := before;
          return false;
        }
        var row := table[item.product];
        table := table[item.product := Row(row.stock, row.reserved - item.quantity)];
      }
      committed := true;
    }

    method RestoreInventory(items: seq<Item>) returns (committed: bool)
      modifies this
      ensures committed == RunAll(Restore, old(table), items).Some?
      ensures table == if committed then RunAll(Restore, old(table), items).value else old(table)
    {
      var before := table;
      for i := 0 to |items|
        invariant RunAll(Restore, before, items) == RunAll(Restore, table, items[i..])
      {
        var item := items[i];
        assert items[i..][1..] == items[i + 1..];
        if item.product !in table {
          table := before;
          return false;
        }
        var row := table[item.product];
        table := table[item.product := Row(row.stock + item.quantity, row.reserved)];
      }
      committed := true;
    }

    /** One guarded update; the row is returned when it took effect. */
    method AdjustInventory(product: int, change: int) returns (row: Option<Row>)
      modifies this
      ensures row.Some? <==> product in old(table) && old(table)[product].stock + change >= 0
      ensures table == if row.Some? then Adjusted(old(table), product, change).value else old(table)
      ensures row.Some? ==>
        row.value.stock == old(table)[product].stock + change && row.value.reserved == old(table)[product].reserved
    {
      if product !in table || table[product].stock + change < 0 { return None; }
      table := table[product := Row(table[product].stock + change, table[product].reserved)];
      row := Some(table[product]);
    }

    /** What is left to reserve; a reservation of these items commits exactly if each demand fits. */
    method GetAvailableStock(product: int) returns (available: Option<int>)
      ensures available == Available(table, product)
    {
      if product !in table { return None; }
      var free := table[product].stock - table[product].reserved;
      available := Some(if free > 0 then free else 0);
    }
  }
}
