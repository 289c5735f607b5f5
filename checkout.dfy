/** The checkout page (app/checkout/page.tsx): quantity editing, the total
    shown to the buyer, primary-address selection and the order request.
    Prices are whole rupiah. */
module Checkout {
  import opened Wrappers

  datatype Product = Product(productId: string, sku: string, name: string, price: int, imageUrl: string)

  datatype ShippingAddress = ShippingAddress(street: string, postalCode: string, city: string, latitude: string, longitude: string)

  /** One entry of the user service's address list. */
  datatype AddressEntry = AddressEntry(id: string, userId: string, address: ShippingAddress, primary: bool)

  datatype OrderItem = OrderItem(productId: string, quantity: int, price: int, subTotal: int)

  /** The body posted to the order service. */
  datatype OrderRequest = OrderRequest(
    cartId: string,
    totalPrice: int,
    shippingMethod: string,
    shippingCost: int,
    items: seq<OrderItem>,
    shippingAddress: ShippingAddress)

  const ShippingMethod := "JNE"
  const ShippingCost := 1000

  const TokenMissing := "Token is missing. Please log in."
  const ProductFetchFailed := "Failed to fetch product details"
  const AddressFetchFailed := "Failed to fetch shipping addresses"
  const PrimaryAddressNotFound := "Primary address not found"

  /** `addresses.find((addr) => addr.primary)`: the first entry flagged primary. */
  function FindPrimary(addresses: seq<AddressEntry>): (r: Option<AddressEntry>)
    ensures r.Some? <==> exists i :: 0 <= i < |addresses| && addresses[i].primary
    ensures r.Some? ==> exists i :: 0 <= i < |addresses| && addresses[i] == r.value && addresses[i].primary
                                    && forall j :: 0 <= j < i ==> !addresses[j].primary
  {
    if addresses == [] then None
    else if addresses[0].primary then Some(addresses[0])
    else
      var r := FindPrimary(addresses[1..]);
      assert forall i :: 1 <= i < |addresses| ==> addresses[i] == addresses[1..][i - 1];
      r
  }

  /** `calculateTotalPrice`: price times quantity once a product is loaded, 0 before.
      A loaded product at a valid quantity costs at least its unit price. */
  function TotalPrice(product: Option<Product>, quantity: int): (total: int)
    ensures product == None ==> total == 0
    ensures product.Some? && product.value.price >= 0 && quantity >= 1 ==> total >= product.value.price
  {
    match product
    case None => 0
    case Some(p) => p.price * quantity
  }

  /** The sum of the line subtotals of an order: what the order is worth
      before any shipping charge. */
  function SumSubTotals(items: seq<OrderItem>): int {
    if items == [] then 0 else items[0].subTotal + SumSubTotals(items[1..])
  }

  /** `orderItems` and `orderData` of `handleConfirmOrder`: a single line for
      the product, and a total that is the line's subtotal alone. */
  function BuildOrder(product: Product, address: ShippingAddress, quantity: int): (order: OrderRequest)
    ensures |order.items| == 1
    ensures order.items[0].productId == product.productId && order.items[0].quantity == quantity
    ensures order.items[0].price == product.price
    ensures order.items[0].subTotal == order.items[0].price * order.items[0].quantity
    ensures order.totalPrice == SumSubTotals(order.items)
    ensures order.totalPrice == TotalPrice(Some(product), quantity)
    ensures order.shippingCost == ShippingCost && order.shippingMethod == ShippingMethod && order.cartId == ""
    ensures order.shippingAddress == address
  {
    var item := OrderItem(product.productId, quantity, product.price, product.price * quantity);
    assert SumSubTotals([item]) == item.subTotal + SumSubTotals([]);
    OrderRequest("", TotalPrice(Some(product), quantity), ShippingMethod, ShippingCost, [item], address)
  }

  /** The shipping charge is not part of the order total: the total of a
      priced order is never the line subtotal plus the shipping cost. */
  lemma OrderTotalOmitsShipping(product: Product, address: ShippingAddress, quantity: int)
    ensures var order := BuildOrder(product, address, quantity);
            order.totalPrice != order.items[0].subTotal + order.shippingCost
  {
  }

  /** With a positive quantity and a non-negative price the total is at least
      the unit price, and it grows with the quantity. */
  lemma TotalPriceMonotone(product: Product, q: int, q': int)
    requires 1 <= q <= q' && product.price >= 0
    ensures product.price <= TotalPrice(Some(product), q) <= TotalPrice(Some(product), q')
  {
  }

  /** The page component's state, mutated by its handlers. */
  class CheckoutPage {
    var product: Option<Product>
    var address: Option<ShippingAddress>
    var quantity: int
    var loading: bool
    var error: Option<string>

    /** The quantity never drops below one. */
    ghost predicate Valid()
      reads this
    {
      quantity >= 1
    }

    constructor ()
      ensures Valid()
      ensures product == None && address == None && quantity == 1 && loading && error == None
    {
      product := None;
      address := None;
      quantity := 1;
      loading := true;
      error := None;
    }

    /** `handleQuantityChange`: values below one are ignored, any other is taken as is. */
    method HandleQuantityChange(value: int)
      requires Valid()
      modifies this`quantity
      ensures Valid()
      ensures value >= 1 ==> quantity == value
      ensures value < 1 ==> quantity == old(quantity)
    {
      if value < 1 {
        return;
      }
      quantity := value;
    }

    /** The quantity text box: `Number(text) || 1`, where `parsed` is `None`
        for text that parses to NaN. NaN and 0 become 1, a negative number is
        ignored, anything else is taken. */
    method HandleQuantityInput(parsed: Option<int>)
      requires Valid()
      modifies this`quantity
      ensures Valid()
      ensures parsed == None || parsed == Some(0) ==> quantity == 1
      ensures parsed.Some? && parsed.value >= 1 ==> quantity == parsed.value
      ensures parsed.Some? && parsed.value < 0 ==> quantity == old(quantity)
    {
      var value := if parsed == None || parsed == Some(0) then 1 else parsed.value;
      HandleQuantityChange(value);
    }

    /** The minus button: one less, but never below one. */
    method DecreaseQuantity()
      requires Valid()
      modifies this`quantity
      ensures Valid()
      ensures quantity == if old(quantity) > 1 then old(quantity) - 1 else old(quantity)
    {
      HandleQuantityChange(quantity - 1);
    }

    /** The plus button: one more. */
    method IncreaseQuantity()
      requires Valid()
      modifies this`quantity
      ensures Valid()
      ensures quantity == old(quantity) + 1
    {
      HandleQuantityChange(quantity + 1);
    }

    /** `handleConfirmOrder` up to the request it posts: nothing is sent when the
        product or address is missing, or when no token is stored; otherwise the
        single-item order for the current product, address and quantity, whose
        total is the total shown on the page. The page state is not changed. */
    method HandleConfirmOrder(authToken: Option<string>) returns (request: Option<OrderRequest>)
      ensures request.Some? <==> product.Some? && address.Some? && authToken.Some? && authToken.value != ""
      ensures request.Some? ==> request.value == BuildOrder(product.value, address.value, quantity)
      ensures request.Some? ==> request.value.totalPrice == TotalPrice(product, quantity)
    {
      if product == None || address == None {
        return None;
      }
      var order := BuildOrder(product.value, address.value, quantity);
      if authToken == None || authToken.value == "" {
        return None;
      }
      request := Some(order);
    }

    /** `fetchProductAndAddress` on the replies of the two services (`None`
        stands for a reply that is not OK). The product is kept as soon as it
        arrives; the address only when a primary one exists; each failure
        records its message; loading ends in every case. */
    method FetchProductAndAddress(authToken: Option<string>, productReply: Option<Product>,
                                  addressReply: Option<seq<AddressEntry>>)
      modifies this`product, this`address, this`error, this`loading
      ensures !loading
      ensures authToken == None || authToken == Some("") ==>
                product == old(product) && address == old(address) && error == Some(TokenMissing)
      ensures authToken.Some? && authToken.value != "" && productReply == None ==>
                product == old(product) && address == old(address) && error == Some(ProductFetchFailed)
      ensures authToken.Some? && authToken.value != "" && productReply.Some? ==> product == productReply
      ensures authToken.Some? && authToken.value != "" && productReply.Some? && addressReply == None ==>
                address == old(address) && error == Some(AddressFetchFailed)
      ensures authToken.Some? && authToken.value != "" && productReply.Some? && addressReply.Some? ==>
                var found := FindPrimary(addressReply.value);
                if found == None then address == old(address) && error == Some(PrimaryAddressNotFound)
                else address == Some(found.value.address) && error == old(error)
    {
      if authToken == None || authToken.value == "" {
        error := Some(TokenMissing);
      } else if productReply == None {
        error := Some(ProductFetchFailed);
      } else {
        product := productReply;
        if addressReply == None {
          error := Some(AddressFetchFailed);
        } else {
          var primaryAddress := FindPrimary(addressReply.value);
          if primaryAddress == None {
            error := Some(PrimaryAddressNotFound);
          } else {
            address := Some(primaryAddress.value.address);
          }
        }
      }
      loading := false;
    }
  }
}
