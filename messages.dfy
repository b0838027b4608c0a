/**
 * The commands and events the allocation domain raises and the message bus
 * dispatches.  A Product's `events` list holds both kinds (change of a batch
 * quantity queues Allocate commands there), so a message is one of the two,
 * or, since Python does not check the type, some other object (`Other`).
 */
module Messages {
  import opened Common

  datatype Command =
    | Allocate(orderid: string, sku: string, qty: int)
    | CreateBatch(ref: string, sku: string, qty: int, eta: Option<int>)
    | ChangeBatchQuantity(ref: string, qty: int)
  {
    /** `type(command)`, the key of the command handler table. */
    function Type(): (r: CommandType)
    {
      match this
      case Allocate(_, _, _) => AllocateType
      case CreateBatch(_, _, _, _) => CreateBatchType
      case ChangeBatchQuantity(_, _) => ChangeBatchQuantityType
    }
  }

  datatype Event =
    | Allocated(orderid: string, sku: string, qty: int, batchref: string)
    | Deallocated(orderid: string, sku: string, qty: int)
    | OutOfStock(sku: string)
  {
    /** `type(event)`, the key of the event handler table. */
    function Type(): (r: EventType)
    {
      match this
      case Allocated(_, _, _, _) => AllocatedType
      case Deallocated(_, _, _) => DeallocatedType
      case OutOfStock(_) => OutOfStockType
    }
  }

  datatype CommandType = AllocateType | CreateBatchType | ChangeBatchQuantityType
  datatype EventType = AllocatedType | DeallocatedType | OutOfStockType

  datatype Message =
    | Cmd(command: Command)
    | Evt(event: Event)
    | Other(description: string)

}
