/** The admin order table: the local status update after a successful
    `PUT /orders/:id/status`, the status-badge colour, the options of the
    status selector and the row numbers. */
module AdminOrdersPage {
  import opened Common

  datatype ItemRow = ItemRow(qty: int, productName: Option<string>)

  /** An order as the page receives it; the status is plain text here. */
  datatype Order = Order(
    id: string, customerName: string, phone: string,
    address: Option<string>, city: Option<string>, pincode: Option<string>,
    totalAmount: int, status: string, createdAt: string, items: seq<ItemRow>)

  /** `updateStatus`: after a successful request every order with that id
      takes the new status and nothing else about any order changes; after
      a failed request the list is untouched. */
  function UpdateStatus(orders: seq<Order>, id: string, status: string, ok: bool): (r: seq<Order>)
    ensures |r| == |orders|
    ensures !ok ==> r == orders
    ensures forall i :: 0 <= i < |orders| ==> r[i].(status := orders[i].status) == orders[i]
    ensures ok ==> forall i :: 0 <= i < |orders| ==>
              r[i].status == (if orders[i].id == id then status else orders[i].status)
  {
    if !ok || |orders| == 0 then orders
    else
      var head := if orders[0].id == id then orders[0].(status := status) else orders[0];
      [head] + UpdateStatus(orders[1..], id, status, ok)
  }

  /** Setting a status twice is setting it once. */
  lemma {:induction false} UpdateStatusIdempotent(orders: seq<Order>, id: string, status: string)
    ensures UpdateStatus(UpdateStatus(orders, id, status, true), id, status, true)
            == UpdateStatus(orders, id, status, true)
  {
    var once := UpdateStatus(orders, id, status, true);
    var twice := UpdateStatus(once, id, status, true);
    assert |twice| == |once|;
    forall i | 0 <= i < |once| ensures twice[i] == once[i] {
      assert twice[i].(status := once[i].status) == once[i];
    }
  }

  /** `getStatusColor`: grey exactly for the text that is not one of the
      selector's live statuses (so for `CANCELLED` and anything unknown),
      and never red. */
  function StatusColor(status: string): (t: Tone)
    ensures t == Gray <==> !(status in StatusOptions && status != "CANCELLED")
    ensures status == "PENDING" ==> t == Orange
    ensures status == "SHIPPED" ==> t == Blue
    ensures status == "DELIVERED" ==> t == Green
    ensures t != Red
  {
    match status
    case "PENDING" => Orange
    case "SHIPPED" => Blue
    case "DELIVERED" => Green
    case _ => Gray
  }

  /** The values of the status selector, in the order shown. */
  const StatusOptions: seq<string> := ["PENDING", "SHIPPED", "DELIVERED", "CANCELLED"]

  /** The three live statuses get three different colours; a cancelled
      order is grey like an unknown status. */
  lemma StatusColorsDistinct()
    ensures StatusColor("PENDING") != StatusColor("SHIPPED")
    ensures StatusColor("SHIPPED") != StatusColor("DELIVERED")
    ensures StatusColor("PENDING") != StatusColor("DELIVERED")
    ensures StatusColor("CANCELLED") == Gray
  {
  }

  /** The numbers in the first column: the row at index `i` shows `i + 1`,
      so the rows are numbered 1 to n without gaps. */
  function RowNumbers(orders: seq<Order>): (r: seq<nat>)
    ensures |r| == |orders|
    ensures forall i :: 0 <= i < |r| ==> r[i] == i + 1
  {
    seq(|orders|, i => i + 1)
  }

  /** A status change, failed or not, renumbers nothing: every order keeps
      the number it had. */
  lemma RowNumbersSurviveStatusChange(orders: seq<Order>, id: string, status: string, ok: bool)
    ensures RowNumbers(UpdateStatus(orders, id, status, ok)) == RowNumbers(orders)
  {
  }

}
