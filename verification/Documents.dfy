/** The stored documents, restricted to the fields the modelled services read or write. Field ranges follow the
    schema validators; `currentStock` and `usedCount` are plain integers because `$inc` runs no validator. */
module Documents {
  import opened Wrappers
  import opened TaxEngine

  type ProductId = string
  type UserId = string
  type CouponId = string

  type Amount = x: real | 0.0 <= x
  type Percent = x: real | 0.0 <= x <= 100.0
  type Units = n: int | 1 <= n witness 1

  datatype ItemType = Bangle | Apparel | Fabric | Innerwear | Accessory

  datatype Product = Product(
    basePrice: Amount,
    discount: Percent,
    currentStock: int,
    isActive: bool,
    taxProfile: TaxProfile,
    itemType: ItemType,
    isFragile: bool)
  {
    /** The live price per unit, after the product's own discount. */
    function ActivePrice(): (p: Amount)
      ensures p <= basePrice
    {
      MulMonotone(discount / 100.0, 1.0, basePrice);
      MulMonotone(0.0, discount / 100.0, basePrice);
      basePrice - basePrice * (discount / 100.0)
    }
  }

  datatype DiscountType = FLAT | PERCENTAGE

  datatype PaymentRestriction = ANY | PREPAID | COD_ONLY
  {
    function Name(): string {
      match this
      case ANY => "ANY"
      case PREPAID => "PREPAID"
      case COD_ONLY => "COD"
    }
  }

  datatype PaymentMethod = RAZORPAY | COD
  {
    function Name(): string {
      match this
      case RAZORPAY => "RAZORPAY"
      case COD => "COD"
    }
  }

  /** `discountValue` is in paise for a flat coupon and in per cent for a percentage one. */
  datatype Coupon = Coupon(
    discountType: DiscountType,
    discountValue: Amount,
    maxDiscountAmount: Option<Amount>,
    minCartValue: real,
    startDate: int,
    expiryDate: int,
    usageLimit: int,
    usedCount: int,
    isActive: bool,
    isFirstOrderOnly: bool,
    paymentMethodRestriction: PaymentRestriction)

  /** A chosen attribute; a number is carried as the text `String(value)` gives it. */
  datatype AttributeValue = Text(text: string) | Number(repr: string) | Boolean(flag: bool)

  /** The quantity of a stored line is within 1..10; a cart being edited may hold any positive quantity. */
  datatype CartItem = CartItem(product: ProductId, quantity: Units, attributes: map<string, AttributeValue>)

  datatype CartDoc = CartDoc(
    items: seq<CartItem>,
    appliedCoupon: Option<CouponId>,
    discountAmount: int,
    totalAfterDiscount: real)

  const EMPTY_CART := CartDoc([], None, 0, 0.0)

  datatype OrderItem = OrderItem(
    product: ProductId,
    quantity: Units,
    priceAtPurchase: Amount,
    taxableValue: int,
    gstRate: int,
    cgst: int,
    sgst: int,
    igst: int)

  datatype Pricing = Pricing(
    subTotal: int,
    discountAmount: int,
    appliedCoupon: Option<CouponId>,
    totalTax: int,
    totalCgst: int,
    totalSgst: int,
    totalIgst: int,
    shippingCost: int,
    shippingTax: int,
    totalAmount: int)

  datatype PaymentStatus = PaymentPending | Paid | PaymentFailed | PaymentRefunded

  datatype OrderStatus = Pending | Processing | Shipped | Delivered | Cancelled | ReturnRequested | Returned

  datatype Order = Order(
    user: UserId,
    items: seq<OrderItem>,
    pricing: Pricing,
    paymentMethod: PaymentMethod,
    paymentStatus: PaymentStatus,
    orderStatus: OrderStatus,
    createdAt: int,
    gatewayOrderId: Option<string>,
    gatewayPaymentId: Option<string>,
    gatewaySignature: Option<string>,
    trackingNumber: Option<string>,
    courierName: Option<string>,
    shiprocketShipmentId: Option<string>)

  datatype ReturnStatus = PendingApproval | Approved | Rejected | Refunded

  datatype ReturnItem = ReturnItem(product: ProductId, quantity: Units)

  datatype Return = Return(items: seq<ReturnItem>, status: ReturnStatus, refundAmountEstimate: int)
}
