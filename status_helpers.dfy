/** Status presentation helpers: case-insensitive maps from a status, role or
    category to a CSS class or an icon, and the capitalised display form of a
    status. */
module StatusHelpers {
  import opened Text
  import opened OrderHelpers

  const PaymentStatuses: seq<string> := ["unpaid", "paid", "refunded"]
  const Roles: seq<string> := ["admin", "manager", "user"]
  const ActiveStatuses: seq<string> := ["active", "inactive"]
  const Categories: seq<string> := ["electronics", "clothing", "home", "books", "sports"]

  /** getOrderStatusClass: 'status-' and the lower-cased status for the five
      order statuses, '' for anything else. */
  function OrderStatusClass(status: string): (r: string)
    ensures Lower(status) in OrderStatuses ==> r == "status-" + Lower(status)
    ensures Lower(status) !in OrderStatuses ==> r == ""
  {
    var s := Lower(status);
    if s == "pending" then "status-pending"
    else if s == "processing" then "status-processing"
    else if s == "shipped" then "status-shipped"
    else if s == "delivered" then "status-delivered"
    else if s == "cancelled" then "status-cancelled"
    else ""
  }

  /** getPaymentStatusClass: 'payment-' and the lower-cased status for unpaid,
      paid and refunded, '' for anything else. */
  function PaymentStatusClass(status: string): (r: string)
    ensures Lower(status) in PaymentStatuses ==> r == "payment-" + Lower(status)
    ensures Lower(status) !in PaymentStatuses ==> r == ""
  {
    var s := Lower(status);
    if s == "unpaid" then "payment-unpaid"
    else if s == "paid" then "payment-paid"
    else if s == "refunded" then "payment-refunded"
    else ""
  }

  /** getRoleClass: never empty; an unknown role is styled as a plain user. */
  function RoleClass(role: string): (r: string)
    ensures r != ""
    ensures Lower(role) in Roles ==> r == "role-" + Lower(role)
    ensures Lower(role) !in Roles ==> r == "role-user"
  {
    var s := Lower(role);
    if s == "admin" then "role-admin"
    else if s == "manager" then "role-manager"
    else if s == "user" then "role-user"
    else "role-user"
  }

  /** getActiveStatusClass: 'status-active', 'status-inactive' or ''. */
  function ActiveStatusClass(status: string): (r: string)
    ensures Lower(status) in ActiveStatuses ==> r == "status-" + Lower(status)
    ensures Lower(status) !in ActiveStatuses ==> r == ""
  {
    var s := Lower(status);
    if s == "active" then "status-active"
    else if s == "inactive" then "status-inactive"
    else ""
  }

  /** getCategoryClass: an unknown category gets 'category-other'. */
  function CategoryClass(category: string): (r: string)
    ensures r != ""
    ensures Lower(category) in Categories ==> r == "category-" + Lower(category)
    ensures Lower(category) !in Categories ==> r == "category-other"
  {
    var s := Lower(category);
    if s == "electronics" then "category-electronics"
    else if s == "clothing" then "category-clothing"
    else if s == "home" then "category-home"
    else if s == "books" then "category-books"
    else if s == "sports" then "category-sports"
    else "category-other"
  }

  // The icons, as Unicode scalar values.
  const Hourglass := "\U{23F3}"
  const Gear := "\U{2699}\U{FE0F}"
  const Truck := "\U{1F69A}"
  const CheckMark := "\U{2705}"
  const CrossMark := "\U{274C}"
  const Package := "\U{1F4E6}"
  const CreditCard := "\U{1F4B3}"
  const ReturnArrow := "\U{21A9}\U{FE0F}"
  const MoneyBag := "\U{1F4B0}"

  /** getOrderStatusIcon: the package icon exactly for an unknown status. */
  function OrderStatusIcon(status: string): (r: string)
    ensures r == Package <==> Lower(status) !in OrderStatuses
    ensures Lower(status) == "delivered" ==> r == CheckMark
    ensures Lower(status) == "cancelled" ==> r == CrossMark
  {
    var s := Lower(status);
    if s == "pending" then Hourglass
    else if s == "processing" then Gear
    else if s == "shipped" then Truck
    else if s == "delivered" then CheckMark
    else if s == "cancelled" then CrossMark
    else Package
  }

  /** getPaymentStatusIcon: the money-bag icon exactly for an unknown status. */
  function PaymentStatusIcon(status: string): (r: string)
    ensures r == MoneyBag <==> Lower(status) !in PaymentStatuses
    ensures Lower(status) == "paid" ==> r == CheckMark
  {
    var s := Lower(status);
    if s == "unpaid" then CreditCard
    else if s == "paid" then CheckMark
    else if s == "refunded" then ReturnArrow
    else MoneyBag
  }

  /** Every map looks only at the lower-cased input. */
  lemma MapsIgnoreCase(s: string)
    ensures OrderStatusClass(s) == OrderStatusClass(Lower(s))
    ensures PaymentStatusClass(s) == PaymentStatusClass(Lower(s))
    ensures RoleClass(s) == RoleClass(Lower(s))
    ensures ActiveStatusClass(s) == ActiveStatusClass(Lower(s))
    ensures CategoryClass(s) == CategoryClass(Lower(s))
    ensures OrderStatusIcon(s) == OrderStatusIcon(Lower(s))
    ensures PaymentStatusIcon(s) == PaymentStatusIcon(Lower(s))
  {
    LowerIdempotent(s);
  }

  /** formatStatus: the first character upper-cased, the rest lower-cased. */
  function FormatStatus(status: string): (r: string)
    ensures |r| == |status|
    ensures r == [] <==> status == []
    ensures r != [] ==> !IsLowerAscii(r[0])
    ensures forall i :: 1 <= i < |r| ==> !IsUpperAscii(r[i])
    ensures forall i :: 0 <= i < |r| ==> EqualsIgnoreCase([r[i]], [status[i]])
  {
    if status == [] then []
    else
      var r := [UpperChar(status[0])] + Lower(status[1..]);
      forall i | 0 <= i < |r| ensures EqualsIgnoreCase([r[i]], [status[i]]) {
        assert Lower([r[i]])[0] == LowerChar(r[i]);
        assert Lower([status[i]])[0] == LowerChar(status[i]);
      }
      r
  }

  /** Formatting a formatted status changes nothing. */
  lemma FormatStatusIdempotent(status: string)
    ensures FormatStatus(FormatStatus(status)) == FormatStatus(status)
  {
    if status != [] {
      var f := FormatStatus(status);
      assert f[1..] == Lower(status[1..]);
      LowerIdempotent(status[1..]);
    }
  }

  /** On the five order statuses, in any case, formatStatus gives the same label
      as getOrderStatusLabel. */
  lemma FormatStatusMatchesOrderLabel(status: string)
    requires Lower(status) in OrderStatuses
    ensures FormatStatus(status) == GetOrderStatusLabel(status)
  {
    var s := Lower(status);
    var f := FormatStatus(status);
    assert f == [UpperChar(status[0])] + Lower(status[1..]);
    assert UpperChar(status[0]) == UpperChar(s[0]);
    assert Lower(status[1..]) == s[1..];
    assert f == [UpperChar(s[0])] + s[1..];
  }

  /** The type argument of getStatusLabel. */
  datatype LabelKind = OrderLabel | PaymentLabel | UserLabel

  datatype StatusLabel = StatusLabel(icon: string, text: string, cssClass: string)

  /** getStatusLabel (fields icon, label and class): the formatted label, the
      kind's class map and the kind's icon; a user status shows the check mark
      exactly when it is active. */
  function GetStatusLabel(status: string, kind: LabelKind): (r: StatusLabel)
    ensures r.text == FormatStatus(status)
    ensures kind == OrderLabel ==> r.cssClass == OrderStatusClass(status) && r.icon == OrderStatusIcon(status)
    ensures kind == PaymentLabel ==> r.cssClass == PaymentStatusClass(status) && r.icon == PaymentStatusIcon(status)
    ensures kind == UserLabel ==> r.cssClass == ActiveStatusClass(status)
    ensures kind == UserLabel ==> (r.icon == CheckMark <==> Lower(status) == "active")
    ensures kind == UserLabel ==> r.icon in [CheckMark, CrossMark]
  {
    var formatted := FormatStatus(status);
    match kind
    case OrderLabel => StatusLabel(OrderStatusIcon(status), formatted, OrderStatusClass(status))
    case PaymentLabel => StatusLabel(PaymentStatusIcon(status), formatted, PaymentStatusClass(status))
    case UserLabel =>
      StatusLabel(if Lower(status) == "active" then CheckMark else CrossMark, formatted,
                  ActiveStatusClass(status))
  }
}
