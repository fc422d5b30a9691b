/** The order-status badge of the customer app (clientes/types/orders.ts):
    label, colours and icon for each backend status, with a fallback. */
module OrderStatus {
  import opened Common

  datatype Status = New | Processing | Shipped | Delivered | Cancelled

  datatype StatusInfo = StatusInfo(caption: string, color: string, bgColor: string, icon: string)

  /** The backend's name for a status. */
  function StatusName(s: Status): string
  {
    match s
    case New => "NEW"
    case Processing => "PROCESSING"
    case Shipped => "SHIPPED"
    case Delivered => "DELIVERED"
    case Cancelled => "CANCELLED"
  }

  /** The status a backend string names, if any. */
  function ParseStatus(name: string): (r: Option<Status>)
    ensures r.Some? ==> StatusName(r.value) == name
    ensures r.None? ==> forall s :: StatusName(s) != name
  {
    if name == "NEW" then Some(New)
    else if name == "PROCESSING" then Some(Processing)
    else if name == "SHIPPED" then Some(Shipped)
    else if name == "DELIVERED" then Some(Delivered)
    else if name == "CANCELLED" then Some(Cancelled)
    else None
  }

  /** Every status name parses back to its status. */
  lemma ParseStatusName(s: Status)
    ensures ParseStatus(StatusName(s)) == Some(s)
  {
  }

  /** The `statusMap` entry of a status. */
  function InfoFor(s: Status): StatusInfo
  {
    match s
    case New => StatusInfo("En preparación", "#ca8a04", "#eab3081a", "pending-actions")
    case Processing => StatusInfo("En preparación", "#ca8a04", "#eab3081a", "pending-actions")
    case Shipped => StatusInfo("En ruta", "#2563eb", "#3b82f61a", "local-shipping")
    case Delivered => StatusInfo("Entregado", "#15803d", "#16a34a1a", "checkmark-circle")
    case Cancelled => StatusInfo("Cancelado", "#dc2626", "#ef44441a", "close-circle")
  }

  /** `getOrderStatusInfo`: the entry for a known status, otherwise NEW's. */
  function GetOrderStatusInfo(name: string): (info: StatusInfo)
    ensures ParseStatus(name).Some? ==> info == InfoFor(ParseStatus(name).value)
    ensures ParseStatus(name).None? ==> info == InfoFor(New)
    ensures info.caption != ""
  {
    match ParseStatus(name)
    case Some(s) => InfoFor(s)
    case None => InfoFor(New)
  }

  /** Two statuses share a badge only when both are still in preparation:
      NEW and PROCESSING look the same, every other pair differs in label. */
  lemma BadgesDistinguishStatuses(a: Status, b: Status)
    ensures InfoFor(a) == InfoFor(b) <==> a == b || (a in {New, Processing} && b in {New, Processing})
    ensures InfoFor(a).caption == InfoFor(b).caption <==> InfoFor(a) == InfoFor(b)
  {
  }

  /** An unknown status looks like a new order. */
  lemma UnknownLooksNew(name: string)
    requires forall s :: StatusName(s) != name
    ensures GetOrderStatusInfo(name) == GetOrderStatusInfo("NEW")
    ensures GetOrderStatusInfo(name).caption == "En preparación"
  {
  }
}
