/** The composite form validators: each runs its field checks in a fixed order
    and returns the first failing check's result as it is, or the valid result
    when every check passes. */
module FormValidators {
  import opened Text
  import opened Records
  import opened Validation
  import opened OrderHelpers

  const InvalidEmailMessage := "Please enter a valid email address"

  /** Every item has a positive quantity and price, and there is at least one. */
  predicate ItemsAcceptable(items: seq<OrderItem>)
  {
    |items| > 0 && forall i :: 0 <= i < |items| ==> items[i].quantity > 0 && items[i].price > 0
  }

  datatype OrderForm = OrderForm(customerName: string, customerEmail: string,
                                 items: seq<OrderItem>, shippingAddress: string)

  /** validateOrderForm: customer name, customer email, email format, items,
      shipping address. */
  function ValidateOrderForm(data: OrderForm): (r: Validation)
    ensures r.valid <==> !AllWhitespace(data.customerName) && !AllWhitespace(data.customerEmail)
                         && ValidateEmail(data.customerEmail) && ItemsAcceptable(data.items)
                         && !AllWhitespace(data.shippingAddress)
    ensures r.valid ==> r == Ok
    ensures AllWhitespace(data.customerName) ==>
              r == ValidateRequired(data.customerName, "Customer name")
    ensures (!AllWhitespace(data.customerName) && AllWhitespace(data.customerEmail)) ==>
              r == ValidateRequired(data.customerEmail, "Customer email")
    ensures (!AllWhitespace(data.customerName) && !AllWhitespace(data.customerEmail)
             && !ValidateEmail(data.customerEmail)) ==> r == Validation(false, InvalidEmailMessage)
    ensures (!AllWhitespace(data.customerName) && ValidateEmail(data.customerEmail)
             && !ItemsAcceptable(data.items)) ==> r == ValidateOrderItems(data.items)
    ensures (!AllWhitespace(data.customerName) && ValidateEmail(data.customerEmail)
             && ItemsAcceptable(data.items) && AllWhitespace(data.shippingAddress)) ==>
              r == ValidateRequired(data.shippingAddress, "Shipping address")
  {
    var nameValidation := ValidateRequired(data.customerName, "Customer name");
    if !nameValidation.valid then nameValidation
    else
      var emailValidation := ValidateRequired(data.customerEmail, "Customer email");
      if !emailValidation.valid then emailValidation
      else if !ValidateEmail(data.customerEmail) then Validation(false, InvalidEmailMessage)
      else
        var itemsValidation := ValidateOrderItems(data.items);
        if !itemsValidation.valid then itemsValidation
        else
          var addressValidation := ValidateRequired(data.shippingAddress, "Shipping address");
          if !addressValidation.valid then addressValidation
          else Ok
  }

  /** A valid email is never blank, so the format check subsumes the required check. */
  lemma ValidEmailNotBlank(email: string)
    requires ValidateEmail(email)
    ensures !AllWhitespace(email)
  {
    var i, j :| 0 < i && i + 1 < j < |email| - 1 && email[i] == '@' && email[j] == '.'
                && Segment(email[..i]) && Segment(email[i + 1..j]) && Segment(email[j + 1..]);
    assert email[i] == '@';
  }

  datatype ProductForm = ProductForm(name: string, description: string, price: int, stock: int,
                                     category: string)

  /** validateProductForm: name, description, price, stock, category; a stock
      of zero is rejected like a negative one. */
  function ValidateProductForm(data: ProductForm): (r: Validation)
    ensures r.valid <==> !AllWhitespace(data.name) && !AllWhitespace(data.description)
                         && data.price > 0 && data.stock > 0 && !AllWhitespace(data.category)
    ensures r.valid ==> r == Ok
    ensures AllWhitespace(data.name) ==> r == ValidateRequired(data.name, "Product name")
    ensures (!AllWhitespace(data.name) && AllWhitespace(data.description)) ==>
              r == ValidateRequired(data.description, "Product description")
    ensures (!AllWhitespace(data.name) && !AllWhitespace(data.description) && data.price <= 0) ==>
              r == ValidatePositiveNumber(data.price, "Price")
    ensures (!AllWhitespace(data.name) && !AllWhitespace(data.description) && data.price > 0
             && data.stock <= 0) ==> r == ValidatePositiveNumber(data.stock, "Stock")
    ensures (!AllWhitespace(data.name) && !AllWhitespace(data.description) && data.price > 0
             && data.stock > 0 && AllWhitespace(data.category)) ==>
              r == ValidateRequired(data.category, "Category")
  {
    var nameValidation := ValidateRequired(data.name, "Product name");
    if !nameValidation.valid then nameValidation
    else
      var descValidation := ValidateRequired(data.description, "Product description");
      if !descValidation.valid then descValidation
      else
        var priceValidation := ValidatePositiveNumber(data.price, "Price");
        if !priceValidation.valid then priceValidation
        else
          var stockValidation := ValidatePositiveNumber(data.stock, "Stock");
          if !stockValidation.valid then stockValidation
          else
            var categoryValidation := ValidateRequired(data.category, "Category");
            if !categoryValidation.valid then categoryValidation
            else Ok
  }

  datatype UserForm = UserForm(name: string, email: string, role: string)

  const ValidRoles: seq<string> := ["user", "manager", "admin"]

  /** validateUserForm: name, email, email format, role, then the role (in any
      case) must be user, manager or admin. */
  function ValidateUserForm(data: UserForm): (r: Validation)
    ensures r.valid <==> !AllWhitespace(data.name) && ValidateEmail(data.email)
                         && Lower(data.role) in ValidRoles
    ensures r.valid ==> r == Ok
    ensures AllWhitespace(data.name) ==> r == ValidateRequired(data.name, "Name")
    ensures (!AllWhitespace(data.name) && AllWhitespace(data.email)) ==>
              r == ValidateRequired(data.email, "Email")
    ensures (!AllWhitespace(data.name) && !AllWhitespace(data.email) && !ValidateEmail(data.email)) ==>
              r == Validation(false, InvalidEmailMessage)
    ensures (!AllWhitespace(data.name) && ValidateEmail(data.email) && AllWhitespace(data.role)) ==>
              r == ValidateRequired(data.role, "Role")
    ensures (!AllWhitespace(data.name) && ValidateEmail(data.email) && !AllWhitespace(data.role)
             && Lower(data.role) !in ValidRoles) ==> r == Validation(false, "Please select a valid role")
  {
    var nameValidation := ValidateRequired(data.name, "Name");
    if !nameValidation.valid then nameValidation
    else
      var emailValidation := ValidateRequired(data.email, "Email");
      if !emailValidation.valid then emailValidation
      else if !ValidateEmail(data.email) then Validation(false, InvalidEmailMessage)
      else
        var roleValidation := ValidateRequired(data.role, "Role");
        if !roleValidation.valid then roleValidation
        else if Lower(data.role) !in ValidRoles then Validation(false, "Please select a valid role")
        else Ok
  }
}
